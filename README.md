# Ocean simulation: a verified model of the host-side core

This project models, in Dafny, the C# host code of a Unity ocean
simulation: the part that runs on the CPU around the GPU's FFT wave
cascades. It covers:

- the command sequences that run the inverse FFT (`ComputeFFT`,
  `ComputeCustomFFT`);
- the read-back of the three displacement maps into CPU textures
  (`OceanCpuData`);
- the CPU-side sampling of wave height and normal over the cascades
  (`OceanDataReader`);
- the generated ocean mesh: one plane, the centre grid and the rings of
  tiles around it (`OceanGenerator`, `OceanGeometry`);
- four buoyancy components:
  - `Buoyancy`, voxels on a texture read-back;
  - `OceanBuoyancy`, per-point sampling with a round-robin budget;
  - `OceanBuoyancyGPU`, a batched compute-shader path with a CPU fallback;
  - `SimpleBuoyancy`, one or a few points with a righting torque;
- the storm controller that maps storm intensity, wave size and wind onto
  the ocean and cascade settings, with presets and smooth transitions
  (`OceanStormController`).

Floating-point arithmetic is modelled with `real`. C#'s truncating
integer `%` is spelled out as `UnityMath.IntRem`; in the round-robin
schedules that use it the dividend is never negative, so it agrees with
Dafny's `%` there. The float `%` is `UnityMath.FMod`. Integer `/` divides only counts, indices and texture sizes by
positive constants, and for such non-negative operands Dafny's `/` agrees
with C#'s. The Unity engine, the GPU and the
physics engine are not modelled. What the components hand to them is
recorded instead:
- dispatches and bindings on a command buffer;
- requested read-backs;
- calls on the rigid body.

What the components read from them (textures, scene transforms, point
velocities, shader results) becomes a parameter.

Modules, one per file:

| module | file | models |
|---|---|---|
| `UnityMath` | unity_math.dfy | vectors and the `Mathf` helpers the scripts use |
| `FftCommands` | fft_commands.dfy | render textures, command buffers, FFT stage loops |
| `FftDispatch` | fft_dispatch.dfy | `ComputeFFT` |
| `CustomFftDispatch` | custom_fft_dispatch.dfy | `ComputeCustomFFT` |
| `CpuReadback` | cpu_readback.dfy | `OceanCpuData` |
| `HeightSampling` | height_sampling.dfy | `OceanDataReader` |
| `VoxelBuoyancy` | voxel_buoyancy.dfy | `Buoyancy` and `BuoyanceVoxel` |
| `PlaneMesh` | plane_mesh.dfy | `OceanGenerator`'s mesh generation |
| `RingGeometry` | ring_geometry.dfy | `OceanGeometry` |
| `PointBuoyancy` | point_buoyancy.dfy | `OceanBuoyancy` |
| `GpuBuoyancy` | gpu_buoyancy.dfy | `OceanBuoyancyGPU` |
| `SimpleFloat` | simple_float.dfy | `SimpleBuoyancy` |
| `StormControl` | storm_control.dfy | `OceanStormController` |

## Model

| member | source | states |
|---|---|---|
| UnityMath.Clamp | Assets/Scripts/OceanStormController.cs:325 | the result lies in `[lo, hi]`, and a value already inside is returned unchanged |
| UnityMath.ClampInt | Assets/Scripts/OceanDataReader.cs:131-132 | the result lies in `[lo, hi]`, and an index already inside is returned unchanged |
| UnityMath.Clamp01 | Assets/Scripts/OceanBuoyancy.cs:227 | the result lies in `[0, 1]`. It is 0 at or below 0, 1 at or above 1, and the value itself in between |
| UnityMath.LerpBetween | Assets/Scripts/OceanStormController.cs:267-280 | a clamped lerp never leaves the segment between its end points |
| UnityMath.FloorToInt | Assets/Scripts/Buoyancy.cs:81-83 | the result is the largest integer not above the value |
| UnityMath.Truncate | Assets/Scripts/Buoyancy.cs:147-154 | a float-to-int cast rounds toward zero: down for non-negative values, up for negative ones |
| UnityMath.RoundToInt | Assets/Scripts/OceanDataReader.cs:131-132 | the result is within one half of the value, and a tie goes to the even integer |
| UnityMath.FMod | Assets/Scripts/OceanStormController.cs:340 | the float remainder has the dividend's sign, lies within one divisor of zero, and is the dividend minus the truncated quotient's multiple |
| UnityMath.IntRem | Assets/Scripts/OceanBuoyancy.cs:197-203 | C#'s integer `%` agrees with the mathematical remainder for a non-negative dividend and a positive divisor |
| CpuReadback.RequestSuppressed | Assets/Scripts/OceanCpuData.cs:53-56 | while any of the three flags is set, a request changes nothing |
| CpuReadback.RequestIssuesOnePerMap | Assets/Scripts/OceanCpuData.cs:53-65 | from an idle state, a request sets all three flags and issues exactly one read-back per map, in map order; exactly one read-back per map is then outstanding, and the textures and events are untouched |
| CpuReadback.RequestPreservesValid | Assets/Scripts/OceanCpuData.cs:53-65 | a request keeps at most one read-back per map outstanding, and only while its flag is set |
| CpuReadback.CompletePreservesValid | Assets/Scripts/OceanCpuData.cs:67-116 | a completion, with or without error, keeps that invariant |
| CpuReadback.SuccessClearsOnlyOwnFlag | Assets/Scripts/OceanCpuData.cs:67-82 | a successful completion clears its own flag and no other, stores its data in its own texture and no other, and issues nothing |
| CpuReadback.FailureKeepsFlagAndTexture | Assets/Scripts/OceanCpuData.cs:69-73 | a failed completion returns early: flags, textures and events are unchanged |
| CpuReadback.FiresIffAllClear | Assets/Scripts/OceanCpuData.cs:80-124 | a completion appends one event exactly when it succeeded and left all flags clear, and that event carries the three cached textures; otherwise the event list is unchanged |
| CpuReadback.NoFireWhileOthersPending | Assets/Scripts/OceanCpuData.cs:118-121 | a successful completion with another map still pending does not fire, and leaves that map pending |
| CpuReadback.FullBatchFiresOnce | Assets/Scripts/OceanCpuData.cs:53-124 | a request followed by three successful completions, in any order, fires the event exactly once, on the last completion, carrying the three new textures |
| CpuReadback.FailureSticks | Assets/Scripts/OceanCpuData.cs:69-73 | after a failed completion, its map's flag stays set with no read-back of that map outstanding |
| CpuReadback.StuckStep | Assets/Scripts/OceanCpuData.cs:43-121 | in that stuck state, neither a frame nor a callback issues a read-back or fires the event, and the state stays stuck |
| CpuReadback.StuckForever | Assets/Scripts/OceanCpuData.cs:43-124 | once stuck, no sequence of frames and callbacks ever issues another read-back or fires the event again |
| CpuReadback.OceanCpuData.constructor | Assets/Scripts/OceanCpuData.cs:26-38 | starts with no flags set, nothing outstanding, no events, and the given textures; that state satisfies the invariant |
| CpuReadback.OceanCpuData.Update | Assets/Scripts/OceanCpuData.cs:43-46 | each frame performs exactly one request step |
| CpuReadback.OceanCpuData.RequestWaterHeight | Assets/Scripts/OceanCpuData.cs:53-65 | the object's new state is the request step applied to the old state |
| CpuReadback.OceanCpuData.OnCompleteReadback1 | Assets/Scripts/OceanCpuData.cs:67-82 | the new state is the completion step for map 1 |
| CpuReadback.OceanCpuData.OnCompleteReadback2 | Assets/Scripts/OceanCpuData.cs:84-99 | the new state is the completion step for map 2 |
| CpuReadback.OceanCpuData.OnCompleteReadback3 | Assets/Scripts/OceanCpuData.cs:101-116 | the new state is the completion step for map 3 |
| CpuReadback.OceanCpuData.FireDisplacementEvent | Assets/Scripts/OceanCpuData.cs:118-124 | the new state is the fire step: one event carrying the three textures when no flag is set, otherwise nothing |
| FftCommands.Log2Floor | Assets/Scripts/ComputeFFT.cs:29 | `(int)Mathf.Log(size, 2)` for a positive size is the largest `k` with `2^k <= size` |
| FftCommands.Log2OfPow2 | Assets/Scripts/ComputeFFT.cs:29 | on a power of two the logarithm is exact |
| FftCommands.StagesDispatch | Assets/Scripts/ComputeFFT.cs:71-77 | a pass of `n` stages dispatches its kernel exactly `n` times and nothing else |
| FftCommands.StagesStageValues | Assets/Scripts/ComputeFFT.cs:71-77 | a pass sets `Stage` to `0, 1, ..., n-1`, in order |
| FftCommands.StagesParities | Assets/Scripts/ComputeFFT.cs:71-77 | a pass sets `PingPong` to the alternating parities `start, start+1, ...` mod 2, toggled after each stage |
| FftCommands.StagesBindNothing | Assets/Scripts/ComputeFFT.cs:71-77 | the stages of a pass bind no texture as PingPong0 or TimeDomain |
| FftCommands.StagesGroups | Assets/Scripts/ComputeFFT.cs:75 | every stage dispatch uses `size/8 x size/8 x 1` thread groups |
| FftCommands.ParitiesConcat | Assets/Scripts/ComputeFFT.cs:76-88 | the vertical pass continues the parity where the horizontal pass stopped: together they alternate from 0 over `2n` stages |
| FftCommands.ButterflyOrder | Assets/Scripts/ComputeFFT.cs:44-51 | the butterfly precompute sets Size and LogSize once each, binds the table, then dispatches the butterfly kernel once, last, with `logSize x size/8 x 1` groups |
| FftCommands.PassDispatched | Assets/Scripts/ComputeFFT.cs:67-77 | a pass (three bindings, then the stages) dispatches its kernel `n` times |
| FftCommands.PassStageValues | Assets/Scripts/ComputeFFT.cs:67-77 | a pass numbers its stages `0 .. n-1` |
| FftCommands.PassParities | Assets/Scripts/ComputeFFT.cs:67-77 | a pass alternates the parity from its start |
| FftCommands.PassPingPong0 | Assets/Scripts/ComputeFFT.cs:67-69 | a pass binds its working texture as PingPong0 exactly once |
| FftCommands.PassTimeDomain | Assets/Scripts/ComputeFFT.cs:67-77 | a pass never binds TimeDomain |
| FftCommands.PassGroups | Assets/Scripts/ComputeFFT.cs:67-77 | every dispatch of a pass uses `size/8 x size/8 x 1` groups |
| FftCommands.AllGroupsAppend | Assets/Scripts/ComputeFFT.cs:53-101 | the group-count property holds for two blocks recorded one after the other |
| FftDispatch.IfftDispatchOrder | Assets/Scripts/ComputeFFT.cs:53-101 | one transform dispatches, in order: the copy-in only when out of place, `logSize` horizontal stages, `logSize` vertical stages, the copy, and the permute-and-scale last |
| FftDispatch.IfftDispatchParts | Assets/Scripts/ComputeFFT.cs:58-100 | the kernels each of the five blocks of a transform dispatches |
| FftDispatch.PassesAlone | Assets/Scripts/ComputeFFT.cs:55-89 | for any projection of the recorded commands on which the copy-in, copy-back and permute blocks record nothing, the whole transform records the horizontal pass's values followed by the vertical pass's |
| FftDispatch.IfftStageNumbers | Assets/Scripts/ComputeFFT.cs:71-89 | the stage numbers run `0 .. logSize-1` for the horizontal pass and again for the vertical pass; no other block sets them |
| FftDispatch.IfftStageParts | Assets/Scripts/ComputeFFT.cs:58-100 | the stage numbers each block sets |
| FftDispatch.IfftParities | Assets/Scripts/ComputeFFT.cs:55-89 | the parity alternates `0, 1, 0, ...` across all `2 * logSize` stages; no other block sets it |
| FftDispatch.IfftParityParts | Assets/Scripts/ComputeFFT.cs:58-100 | the parities each block sets |
| FftDispatch.IfftPingPong0 | Assets/Scripts/ComputeFFT.cs:56-98 | `input` is bound as PingPong0 only by the copy-in. Both passes, the copy and the permute bind the working texture, which is `output` when given and `input` otherwise |
| FftDispatch.IfftPingPong0Parts | Assets/Scripts/ComputeFFT.cs:58-100 | the PingPong0 binding of each block |
| FftDispatch.IfftGroups | Assets/Scripts/ComputeFFT.cs:53-101 | every dispatch of a transform uses `size/8 x size/8 x 1` groups |
| FftDispatch.ComputeFFT.constructor | Assets/Scripts/ComputeFFT.cs:24-42 | stores size and `logSize = floor(log2 size)`; creates a `logSize x size` butterfly texture and a `size x size` ping-pong texture, both fresh; records the butterfly precompute exactly once |
| FftDispatch.ComputeFFT.ComputeButerflyTexture | Assets/Scripts/ComputeFFT.cs:44-51 | appends exactly the butterfly precompute commands |
| FftDispatch.ComputeFFT.RecordStages | Assets/Scripts/ComputeFFT.cs:71-77 | the loop appends exactly the `logSize` stages, with parity starting at `start` mod 2, and returns the parity `(start + logSize) % 2` |
| FftDispatch.ComputeFFT.RecordCopyIn | Assets/Scripts/ComputeFFT.cs:55-65 | appends the copy-in exactly when an output is given, and returns the working texture |
| FftDispatch.ComputeFFT.RecordBindings | Assets/Scripts/ComputeFFT.cs:67-81 | appends the three bindings of a pass |
| FftDispatch.ComputeFFT.RecordCopyBack | Assets/Scripts/ComputeFFT.cs:91-94 | appends the final copy into the ping-pong texture |
| FftDispatch.ComputeFFT.RecordPermute | Assets/Scripts/ComputeFFT.cs:96-100 | appends the permute-and-scale |
| FftDispatch.ComputeFFT.DoIFFT | Assets/Scripts/ComputeFFT.cs:53-101 | appends exactly one transform's commands (copy-in, two passes, copy, permute) to the buffer, which the lemmas above characterise |
| CustomFftDispatch.CustomIfftDispatches | Assets/Scripts/ComputeCustomFFT.cs:64-98 | the dispatches are the horizontal stages, the vertical stages, then the permute; no copy kernel is dispatched |
| CustomFftDispatch.CustomDispatchParts | Assets/Scripts/ComputeCustomFFT.cs:68-97 | the kernels each of the three blocks dispatches |
| CustomFftDispatch.CustomIfftDispatchCount | Assets/Scripts/ComputeCustomFFT.cs:64-98 | exactly `2 * logSize + 1` dispatches, none of them the copy kernel |
| CustomFftDispatch.CustomIfftStageNumbers | Assets/Scripts/ComputeCustomFFT.cs:72-90 | horizontal stages `0 .. logSize-1`, then vertical stages `0 .. logSize-1` |
| CustomFftDispatch.CustomStageParts | Assets/Scripts/ComputeCustomFFT.cs:68-97 | the stage numbers each block sets |
| CustomFftDispatch.CustomIfftParities | Assets/Scripts/ComputeCustomFFT.cs:66-93 | the stages alternate the parity from 0. The permute is then told the final parity, which is 0 after the even number of toggles |
| CustomFftDispatch.CustomParityParts | Assets/Scripts/ComputeCustomFFT.cs:68-97 | the parities each block sets |
| CustomFftDispatch.CustomIfftPingPong0 | Assets/Scripts/ComputeCustomFFT.cs:69-94 | `input` is bound as PingPong0 by both passes and by the permute, and nothing else is |
| CustomFftDispatch.CustomPingPong0Parts | Assets/Scripts/ComputeCustomFFT.cs:68-97 | the PingPong0 binding of each block |
| CustomFftDispatch.CustomIfftTimeDomain | Assets/Scripts/ComputeCustomFFT.cs:96 | `output` is bound once, as TimeDomain, by the permute |
| CustomFftDispatch.CustomTimeDomainParts | Assets/Scripts/ComputeCustomFFT.cs:68-97 | the TimeDomain binding of each block |
| CustomFftDispatch.CustomIfftGroups | Assets/Scripts/ComputeCustomFFT.cs:64-98 | every dispatch uses `size/8 x size/8 x 1` groups |
| CustomFftDispatch.ComputeCustomFFT.constructor | Assets/Scripts/ComputeCustomFFT.cs:23-40 | stores size and `logSize`; creates fresh textures of the stated sizes; records the butterfly precompute once |
| CustomFftDispatch.ComputeCustomFFT.ComputeButerflyTexture | Assets/Scripts/ComputeCustomFFT.cs:42-49 | appends exactly the butterfly precompute commands |
| CustomFftDispatch.ComputeCustomFFT.RecordBindings | Assets/Scripts/ComputeCustomFFT.cs:68-82 | appends the three bindings of a pass, with `input` as PingPong0 |
| CustomFftDispatch.ComputeCustomFFT.RecordStages | Assets/Scripts/ComputeCustomFFT.cs:72-78 | the loop appends exactly the `logSize` stages and returns the parity after them |
| CustomFftDispatch.ComputeCustomFFT.RecordPermute | Assets/Scripts/ComputeCustomFFT.cs:92-97 | appends the permute-and-scale with the given parity and the output bound as TimeDomain |
| CustomFftDispatch.ComputeCustomFFT.DoIFFT | Assets/Scripts/ComputeCustomFFT.cs:64-98 | appends exactly one transform's commands: two passes on `input`, then the permute into `output` |
| FftCommands.CommandBuffer.constructor | Assets/Scripts/ComputeFFT.cs:24-28 | a fresh command buffer holds no commands |
| FftCommands.CommandBuffer.SetComputeIntParam | Assets/Scripts/ComputeFFT.cs:46-47 | setting an integer parameter appends exactly that command and changes nothing recorded before |
| FftCommands.CommandBuffer.SetComputeTextureParam | Assets/Scripts/ComputeFFT.cs:48 | binding a texture to a kernel's slot appends exactly that command |
| FftCommands.CommandBuffer.DispatchCompute | Assets/Scripts/ComputeFFT.cs:50 | a dispatch appends exactly that kernel with its thread-group counts |
| FftCommands.Stages | Assets/Scripts/ComputeFFT.cs:71-77 | `n` stages of a pass record three commands each |
| FftCommands.StageProjections | Assets/Scripts/ComputeFFT.cs:73-75 | one stage dispatches its kernel once, sets `Stage` and `PingPong` once each and binds no texture |
| HeightSampling.Wrap | Assets/Scripts/OceanDataReader.cs:127-128 | `uv - floor(uv)` lies in [0,1), even for negative input, and differs from the input by a whole number |
| HeightSampling.WrapPeriodic | Assets/Scripts/OceanDataReader.cs:126-128 | wrapping ignores whole-number shifts |
| HeightSampling.TexelIndex | Assets/Scripts/OceanDataReader.cs:127-132 | the wrapped, rounded and clamped texel index lies in `[0, size-1]` |
| HeightSampling.TexelOf | Assets/Scripts/OceanDataReader.cs:131-132 | `Clamp(RoundToInt(w * size), 0, size-1)` lies in `[0, size-1]` |
| HeightSampling.RoundingToSizeClampsToLast | Assets/Scripts/OceanDataReader.cs:131-132 | a coordinate that rounds up to `size` reads the last texel rather than wrapping to texel 0 |
| HeightSampling.RoundingToSizeExample | Assets/Scripts/OceanDataReader.cs:131 | on a 4-texel row, the coordinate 0.95 rounds to 4 and reads texel 3 |
| HeightSampling.TexelIndexPeriodic | Assets/Scripts/OceanDataReader.cs:124-132 | the texel index depends on the coordinate only modulo 1 |
| HeightSampling.SampleTiles | Assets/Scripts/OceanDataReader.cs:80-136 | moving a world position by whole multiples of a cascade's length scale in x and z leaves that cascade's sample unchanged |
| HeightSampling.InactiveAddsNothing | Assets/Scripts/OceanDataReader.cs:78 | a cascade without a map, or with a non-positive length scale, adds nothing to the sum |
| HeightSampling.NoActiveCascadeIsFlat | Assets/Scripts/OceanDataReader.cs:70-87 | with no active cascade the displacement is zero |
| HeightSampling.HeightSumTiles | Assets/Scripts/OceanDataReader.cs:73-85 | when every cascade's sample is unchanged by a shift, so is the summed displacement |
| HeightSampling.ContributionTiles | Assets/Scripts/OceanDataReader.cs:75-84 | a shift by whole multiples of cascade `i`'s length scale leaves its contribution unchanged |
| HeightSampling.SampleOceanHeight | Assets/Scripts/OceanDataReader.cs:58-88 | the loop returns the sum over the active cascades of the texel sampled at `xz / lengthScale`, or zero without a generator |
| HeightSampling.SampleOceanNormal | Assets/Scripts/OceanDataReader.cs:90-122 | the loop returns `(-sum dx, 1, -sum dz)` over the active normal maps, or up without a generator; its y component is positive |
| HeightSampling.SampleOceanDataBatch | Assets/Scripts/OceanDataReader.cs:161-173 | returns fresh arrays as long as the input; entry `i` holds the displacement's y and the normal at position `i` |
| VoxelBuoyancy.GetPixelInside | Assets/Scripts/OceanCpuData.cs:29-30 | inside the texture, a lookup on a Repeat-wrapped texture reads the texel itself |
| VoxelBuoyancy.GetPixelRepeats | Assets/Scripts/OceanCpuData.cs:29-30 | on a Repeat-wrapped texture, coordinates a whole number of texture sizes apart read the same texel |
| VoxelBuoyancy.BuoyanceVoxel.constructor | Assets/Scripts/Buoyancy.cs:11-16 | a cube keeps its size and its offset in the parent's space |
| VoxelBuoyancy.BuoyanceVoxel.SetWaterHeight | Assets/Scripts/Buoyancy.cs:18-21 | stores the water height |
| VoxelBuoyancy.BuoyanceVoxel.GetHeightDifference | Assets/Scripts/Buoyancy.cs:28-32 | `max(water - (y - size/2), 0)` is never negative. It is positive exactly when the water stands above the bottom face, and then equals the depth of water over that face |
| VoxelBuoyancy.BuoyanceVoxel.GetDisplacedVolume | Assets/Scripts/Buoyancy.cs:39-43 | the displaced volume is never negative, and zero for a cube that is not under water |
| VoxelBuoyancy.UnderWaterIffAboveBottom | Assets/Scripts/Buoyancy.cs:34-37 | a cube is under water exactly when the water line is above its bottom face |
| VoxelBuoyancy.DisplacedVolumeMonotone | Assets/Scripts/Buoyancy.cs:31-42 | raising the water never shrinks a cube's displaced volume |
| VoxelBuoyancy.RowWithin | Assets/Scripts/Buoyancy.cs:91-98 | the innermost loop visits the cells `(i, j, 0 .. k-1)`, each once |
| VoxelBuoyancy.PlaneWithin | Assets/Scripts/Buoyancy.cs:89-99 | the middle loop visits only cells of its layer, each once |
| VoxelBuoyancy.BlockWithin | Assets/Scripts/Buoyancy.cs:87-100 | the three loops visit only cells of the box, and none twice |
| VoxelBuoyancy.PlaneLength | Assets/Scripts/Buoyancy.cs:89-99 | a layer has `yCount * zCount` cells |
| VoxelBuoyancy.BlockLength | Assets/Scripts/Buoyancy.cs:87-100 | the grid has `xCount * yCount * zCount` cells |
| VoxelBuoyancy.CellCount | Assets/Scripts/Buoyancy.cs:81-83 | `FloorToInt(extent / v)`, taken as a loop count, is the whole number of cubes that fit: at most `extent / v`, and more than `extent / v - 1` (zero for a negative extent) |
| VoxelBuoyancy.NegativeSizeNoCells | Assets/Scripts/Buoyancy.cs:81-83 | for a negative cube side over a box of non-negative extent, `FloorToInt(extent / v)` is at most zero, so the loop runs no times |
| VoxelBuoyancy.ForcesOnlyUnderWater | Assets/Scripts/Buoyancy.cs:103-114 | one step makes one force call per cube under water and none for the others. Each call pushes straight up at its own cube's position, with that cube's displaced volume times gravity over the cube count, times the factor |
| VoxelBuoyancy.ForcesStep | Assets/Scripts/Buoyancy.cs:105-113 | the calls for the first `n + 1` cubes are those for the first `n`, plus cube `n`'s own call when it is under water |
| VoxelBuoyancy.SubmergedIsSum | Assets/Scripts/Buoyancy.cs:105-113 | the submerged volume is the sum of the wet cubes' displaced volumes |
| VoxelBuoyancy.ForcesAreLifts | Assets/Scripts/Buoyancy.cs:105-113 | the recorded upward forces add up as the lifts of the wet cubes' volumes |
| VoxelBuoyancy.LiftsScale | Assets/Scripts/Buoyancy.cs:111-112 | summing the per-cube lifts scales the summed volume by `gravity / count * factor` |
| VoxelBuoyancy.ForcesSumToSubmergedVolume | Assets/Scripts/Buoyancy.cs:103-114 | the upward forces of one step add up to the total submerged volume times gravity over the cube count, times the buoyancy factor |
| VoxelBuoyancy.RawIndexShifted | Assets/Scripts/Buoyancy.cs:147-154 | the index computed with C#'s truncating `%` is the floor index shifted by a whole number of texture sizes |
| VoxelBuoyancy.RawIndexNegative | Assets/Scripts/Buoyancy.cs:147-154 | for a negative coordinate that is not a multiple of the length scale, the computed index lies in `[-size, 0)`: the truncating `%` does not wrap it into the texture |
| VoxelBuoyancy.RawIndexNegativeExample | Assets/Scripts/Buoyancy.cs:147 | world x = -1 in a cascade of length 4 at 8 texels gives index -2, where a true modulo gives 6 |
| VoxelBuoyancy.RepeatWrapHidesTruncation | Assets/Scripts/Buoyancy.cs:147-166 | on a Repeat-wrapped texture, the negative index reads the same texel as the floor index (the tiling itself is `GetPixelRepeats`) |
| VoxelBuoyancy.RefineSettles | Assets/Scripts/Buoyancy.cs:141-174 | once an iteration lands on a sample point that the world point minus the horizontal displacement read there maps back to itself, every later iteration returns the same probe: the search has reached a fixed point and further iterations change neither the point nor the height |
| VoxelBuoyancy.FlatMapsReadInPlace | Assets/Scripts/Buoyancy.cs:141-174 | when the maps displace nothing sideways, every iteration from the first samples directly under the world point, so the height SampleHeight returns is the vertical displacement read there |
| VoxelBuoyancy.PlacedConcat | Assets/Scripts/Buoyancy.cs:87-100 | the placement property holds for two blocks of cubes appended in order |
| VoxelBuoyancy.PlaceRow | Assets/Scripts/Buoyancy.cs:91-98 | the innermost loop creates one fresh cube of side `v` per cell of the row, at the local image of the cell centre |
| VoxelBuoyancy.PlacePlane | Assets/Scripts/Buoyancy.cs:89-99 | the middle loop creates one fresh cube per cell of the layer, in loop order |
| VoxelBuoyancy.Buoyancy.constructor | Assets/Scripts/Buoyancy.cs:46-59 | starts with the given voxel size and factor, no cubes and no calls |
| VoxelBuoyancy.Buoyancy.PopulateVoxels | Assets/Scripts/Buoyancy.cs:75-101 | the list holds `xCount * yCount * zCount` fresh cubes, one per cell of the box, in loop order. Each has side `voxelSize` and sits at the local image of its cell's centre. A negative `voxelSize` over bounds of non-negative x extent leaves the list empty. No forces are applied |
| VoxelBuoyancy.Buoyancy.ApplyForces | Assets/Scripts/Buoyancy.cs:103-114 | the calls of one step are appended in list order: exactly the per-cube forces above. The cube list is unchanged |
| VoxelBuoyancy.Buoyancy.ReadDisplacement | Assets/Scripts/Buoyancy.cs:143-166 | one iteration's reads are the three maps' pixels at the truncating indices, summed |
| VoxelBuoyancy.Buoyancy.SampleHeight | Assets/Scripts/Buoyancy.cs:131-175 | the eight-iteration loop returns the height of the eight-step refinement |
| VoxelBuoyancy.Buoyancy.OnDisplacementsReceived | Assets/Scripts/Buoyancy.cs:121-129 | every cube takes the water height sampled under its own world position |
| PlaneMesh.RowMajor | Assets/Scripts/OceanGenerator.cs:204-224 | division and remainder undo a row-major slot |
| PlaneMesh.VertexSlotCoordinates | Assets/Scripts/OceanGenerator.cs:204-223 | grid point `(x, y)` is written at slot `y * (resolution+1) + x`, and that slot names `(x, y)` back, so each slot is written once |
| PlaneMesh.VertexSlotsCover | Assets/Scripts/OceanGenerator.cs:195-224 | the grid points' slots are exactly `0 .. (resolution+1)^2 - 1` |
| PlaneMesh.TriangleCornersOfCell | Assets/Scripts/OceanGenerator.cs:211-221 | the six triangle slots from `6 * cell(x, y)` on hold the six corners that cell writes |
| PlaneMesh.CellSlotBound | Assets/Scripts/OceanGenerator.cs:197-211 | a cell inside the grid has its six slots inside the triangle array |
| PlaneMesh.TriangleCornerInRange | Assets/Scripts/OceanGenerator.cs:195-219 | every triangle index names an existing vertex |
| PlaneMesh.CellRow | Assets/Scripts/OceanGenerator.cs:211 | a cell number below `resolution^2` lies in one of the first `resolution` rows |
| PlaneMesh.FarCornerBound | Assets/Scripts/OceanGenerator.cs:215 | the far corner `v + resolution + 2` of an inside cell is at most the last vertex |
| PlaneMesh.QuadUsesCellCorners | Assets/Scripts/OceanGenerator.cs:213-219 | both triangles of a cell use only the cell's own four corners |
| PlaneMesh.UvInUnitSquare | Assets/Scripts/OceanGenerator.cs:209 | each texture coordinate lies in the unit square |
| PlaneMesh.NextRow | Assets/Scripts/OceanGenerator.cs:204-225 | finishing row `y` leaves the vertex and triangle counters where row `y + 1` starts them |
| PlaneMesh.VertexSlotBound | Assets/Scripts/OceanGenerator.cs:195-208 | a grid point's slot lies inside the vertex array |
| PlaneMesh.GeneratePlane | Assets/Scripts/OceanGenerator.cs:193-236 | returns arrays of `(resolution+1)^2` vertices and uvs and `resolution^2 * 6` triangle indices. Every slot holds what the slot alone determines: the point `size * (x/resolution - 0.5)` across and along, its uv, and corner `t % 6` of cell `t / 6` |
| PlaneMesh.GenerateRow | Assets/Scripts/OceanGenerator.cs:206-224 | the inner loop extends the written prefixes of all three arrays by row `y`, and leaves the counters at the next row's start |
| PlaneMesh.WriteQuad | Assets/Scripts/OceanGenerator.cs:211-222 | writes the six corners of one cell at the running triangle index and nothing else |
| PlaneMesh.UnitStep | Assets/Scripts/OceanGenerator.cs:199-209 | a grid coordinate times the step `1/resolution` lies in `[0, 1]` |
| RingGeometry.SlotCoordinates | Assets/Scripts/OceanGeometry.cs:71 | division and remainder undo the slot `h * width + w` |
| RingGeometry.GridSlotsCover | Assets/Scripts/OceanGeometry.cs:61-71 | every vertex slot is the slot of exactly one grid point `(w, h)` |
| RingGeometry.GridCentred | Assets/Scripts/OceanGeometry.cs:54-73 | the position delta centres the grid: its first and last points mirror each other through the origin |
| RingGeometry.GridUvInUnitSquare | Assets/Scripts/OceanGeometry.cs:74 | every uv lies in the unit square, and the far corner's uv is `(1, 1)` |
| RingGeometry.UnitFraction | Assets/Scripts/OceanGeometry.cs:74 | `a / n` lies in `[0, 1]` for `0 <= a <= n` |
| RingGeometry.GridCellBound | Assets/Scripts/OceanGeometry.cs:62-80 | the running number of an inner cell lies below the cell count |
| RingGeometry.FarCornerBound | Assets/Scripts/OceanGeometry.cs:82 | the far corner `vertIndex + width + 1` (after the increment) of an inner cell is a vertex |
| RingGeometry.GridSlotBound | Assets/Scripts/OceanGeometry.cs:63-71 | a grid point's slot lies inside the vertex array |
| RingGeometry.CellColumn | Assets/Scripts/OceanGeometry.cs:67-78 | a cell number names a column inside the grid |
| RingGeometry.GridTriangleCornerInRange | Assets/Scripts/OceanGeometry.cs:80-85 | every triangle index names an existing vertex |
| RingGeometry.GridCornersOfCell | Assets/Scripts/OceanGeometry.cs:80-85 | the six triangle slots of cell `(w, h)` hold the two triangles over that cell's corners |
| RingGeometry.VisitStep | Assets/Scripts/OceanGeometry.cs:69-73 | one inner step adds exactly the current point to the points written |
| RingGeometry.NextColumn | Assets/Scripts/OceanGeometry.cs:67-69 | finishing column `w` leaves the points written and the triangle counter where column `w + 1` starts |
| RingGeometry.GenerateHorizontal | Assets/Scripts/OceanGeometry.cs:52-96 | returns `(width+1)(height+1)` vertices and uvs and `width * height * 2 * 3` triangle indices. Every vertex, uv and index equals the value its slot alone determines, so each slot is written once and every index is in range |
| RingGeometry.GenerateColumn | Assets/Scripts/OceanGeometry.cs:69-86 | the inner loop writes the points of column `w` and the triangles of its inner cells, and advances the triangle counter by six per inner cell |
| RingGeometry.WriteCell | Assets/Scripts/OceanGeometry.cs:80-85 | writes the six corners of one cell at the running triangle index and nothing else |
| RingGeometry.RowTilesInRing | Assets/Scripts/OceanGeometry.cs:29-34 | the inner loop's tiles lie on ring `r`'s border, in row `z`, in increasing cell order |
| RingGeometry.IncreasingConcat | Assets/Scripts/OceanGeometry.cs:27-29 | appending a later row keeps the cells in increasing order |
| RingGeometry.InRingConcat | Assets/Scripts/OceanGeometry.cs:27-29 | appending tiles of one ring keeps them all in that ring |
| RingGeometry.RingRowsInRing | Assets/Scripts/OceanGeometry.cs:27-34 | the rows made so far lie in the ring, below the current row, in increasing order |
| RingGeometry.RingTilesOnBorder | Assets/Scripts/OceanGeometry.cs:19-50 | every tile a ring makes is one of its border cells, each at most once, in row-major order |
| RingGeometry.RingTilesComplete | Assets/Scripts/OceanGeometry.cs:27-34 | every border cell of the ring's square gets its own tile, at the position the loops give it |
| RingGeometry.RowTileAt | Assets/Scripts/OceanGeometry.cs:29-34 | a border cell `x` of row `z` has its tile right after those of the cells left of it |
| RingGeometry.RingTileAt | Assets/Scripts/OceanGeometry.cs:27-29 | the tiles of an earlier row keep their place in the ring's list |
| RingGeometry.RowTilesCount | Assets/Scripts/OceanGeometry.cs:29-32 | the first and last rows make a tile per cell, the rows between only two |
| RingGeometry.RingRowsCount | Assets/Scripts/OceanGeometry.cs:25-32 | the rows before `k` hold `m + 2(k-1)` tiles |
| RingGeometry.RingTileCount | Assets/Scripts/OceanGeometry.cs:19-50 | ring 0 has one tile and ring `r >= 1` has `8r` |
| RingGeometry.GridCount | Assets/Scripts/OceanGeometry.cs:11-17 | `numRings` rings hold `(2 numRings - 1)^2` tiles together, the area of the full square |
| RingGeometry.SquareStep | Assets/Scripts/OceanGeometry.cs:25 | the square of side `2r+3` is the square of side `2r+1` plus the `8(r+1)` border cells |
| RingGeometry.AscendingConcat | Assets/Scripts/OceanGeometry.cs:13-16 | appending ring `n` after the rings below it keeps the rings in order |
| RingGeometry.GridRingsInOrder | Assets/Scripts/OceanGeometry.cs:11-17 | the grid's tiles come ring by ring, from ring 0 outwards, all below `numRings` |
| RingGeometry.RingTilesCoincide | Assets/Scripts/OceanGeometry.cs:34-42 | all tiles of one ring sit at the same position, as the unused start point leaves them |
| RingGeometry.RowStep | Assets/Scripts/OceanGeometry.cs:29-34 | one inner step adds the cell's tile exactly when the cell is on the border |
| RingGeometry.RingStep | Assets/Scripts/OceanGeometry.cs:27-29 | one outer step appends a whole row |
| RingGeometry.GridStep | Assets/Scripts/OceanGeometry.cs:13-16 | one step of the ring loop appends the whole ring |
| RingGeometry.OceanGeometry.constructor | Assets/Scripts/OceanGeometry.cs:6-9 | records the ring size, resolution and ring count, with no tiles yet |
| RingGeometry.OceanGeometry.GenerateGrid | Assets/Scripts/OceanGeometry.cs:11-17 | appends exactly the tiles of rings `0 .. numRings-1`, in order, and changes no setting |
| RingGeometry.OceanGeometry.GenerateRing | Assets/Scripts/OceanGeometry.cs:19-50 | appends exactly the ring's border tiles, in loop order, and changes no setting |
| RingGeometry.RingRow | Assets/Scripts/OceanGeometry.cs:29-48 | the inner loop's tiles are exactly the next row of the ring |
| PointBuoyancy.SphereVolumeSign | Assets/Scripts/OceanBuoyancy.cs:226 | the sphere volume `(4/3)·π·r³` is never negative for `r >= 0`, and is positive for `r > 0` |
| PointBuoyancy.SubmersionRatio | Assets/Scripts/OceanBuoyancy.cs:227 | the clamped ratio lies in `[0, 1]`. It is positive for a positive radius and reaches 1 once the centre is a diameter deep. A zero radius gives 1, as the infinite float quotient clamps |
| PointBuoyancy.VolumeBounds | Assets/Scripts/OceanBuoyancy.cs:221-256 | the submerged volume lies between 0 and the whole sphere. It is 0 when the centre is not below the water, positive exactly when it is (for a positive radius), and the whole sphere from a diameter deep on |
| PointBuoyancy.VolumeMonotone | Assets/Scripts/OceanBuoyancy.cs:221-228 | a deeper centre never gives a smaller submerged volume |
| PointBuoyancy.RatioMonotone | Assets/Scripts/OceanBuoyancy.cs:227 | the submersion ratio never falls as the centre goes deeper |
| PointBuoyancy.UpdatedPoint | Assets/Scripts/OceanBuoyancy.cs:212-259 | the update keeps the point's local position and radius, and refreshes its world position and water height. Its volume is the point's share of the totals. A point not below the water ends with zero force and its old velocity |
| PointBuoyancy.UpdateIdempotent | Assets/Scripts/OceanBuoyancy.cs:212-259 | updating a point twice in the same scene gives the same point and the same share of the totals as updating it once |
| PointBuoyancy.SubmergedIffPositiveVolume | Assets/Scripts/OceanBuoyancy.cs:212-259 | a point of positive radius ends with a positive volume exactly when `IsPointSubmerged` holds at its world position. Without wave forces no drag enters the totals and the point's force is its buoyancy alone |
| PointBuoyancy.PointsToUpdate | Assets/Scripts/OceanBuoyancy.cs:190-192 | a step updates at most every point: all of them without asynchronous sampling, otherwise the smaller of the budget and the count |
| PointBuoyancy.Schedule | Assets/Scripts/OceanBuoyancy.cs:194-200 | the schedule of the first `n` sample indices has length `n` |
| PointBuoyancy.ModDistinct | Assets/Scripts/OceanBuoyancy.cs:197 | round-robin offsets less than a list length apart land on different points |
| PointBuoyancy.ScheduleValid | Assets/Scripts/OceanBuoyancy.cs:194-200 | every index a step samples is a valid list index, and no point is sampled twice in one step |
| PointBuoyancy.ScheduleEntry | Assets/Scripts/OceanBuoyancy.cs:196-197 | the `m`-th scheduled index is `(currentSampleIndex + m) % count`, or `m` without asynchronous sampling |
| PointBuoyancy.NextStartInRange | Assets/Scripts/OceanBuoyancy.cs:202-203 | the next step's start is a valid index right after the last point sampled, and stays put when the whole list fits in the budget |
| PointBuoyancy.SuccessorMod | Assets/Scripts/OceanBuoyancy.cs:203 | stepping one past a remainder and wrapping equals the remainder of the successor |
| PointBuoyancy.Sampled | Assets/Scripts/OceanBuoyancy.cs:194-200 | updating the scheduled points one after another keeps the list's length |
| PointBuoyancy.SampledPointwise | Assets/Scripts/OceanBuoyancy.cs:194-200 | after a step, exactly the scheduled points are updated, and every other point is unchanged |
| PointBuoyancy.SampledContribution | Assets/Scripts/OceanBuoyancy.cs:212-259 | sampling never changes what a point contributes to the totals |
| PointBuoyancy.SampleStep | Assets/Scripts/OceanBuoyancy.cs:194-200 | one more loop iteration updates the next scheduled point in place and adds its share to the totals |
| PointBuoyancy.VolumeSumSign | Assets/Scripts/OceanBuoyancy.cs:231 | non-negative volumes sum to a non-negative total, and a positive total has a point with positive volume |
| PointBuoyancy.TotalVolumeSign | Assets/Scripts/OceanBuoyancy.cs:184-231 | with non-negative radii the step's total volume is never negative, and a positive total means some scheduled point is submerged |
| PointBuoyancy.ContributionMoment | Assets/Scripts/OceanBuoyancy.cs:232 | a point adds its world position scaled by its volume to the moment |
| PointBuoyancy.Contributions | Assets/Scripts/OceanBuoyancy.cs:194-200 | there is one contribution per scheduled point |
| PointBuoyancy.AccumulateIsSum | Assets/Scripts/OceanBuoyancy.cs:230-237 | the running totals are the sum of the scheduled points' contributions |
| PointBuoyancy.MomentSum | Assets/Scripts/OceanBuoyancy.cs:232 | contributions whose moments all sit at one position sum to a moment at that position |
| PointBuoyancy.MomentAtCommonPosition | Assets/Scripts/OceanBuoyancy.cs:232 | when every scheduled point sits at one world position, the summed moment is that position times the total volume |
| PointBuoyancy.CentreAtCommonPosition | Assets/Scripts/OceanBuoyancy.cs:205-209 | the centre of buoyancy is a volume-weighted mean: points that all sit at one position put the centre there |
| PointBuoyancy.CentreOfCommonMoment | Assets/Scripts/OceanBuoyancy.cs:206-209 | dividing a moment `w · v` by a positive volume `v` gives `w` |
| PointBuoyancy.SubmergedCount | Assets/Scripts/OceanBuoyancy.cs:317-322 | the count of submerged points never exceeds the list's length |
| PointBuoyancy.PointCallsPerSubmergedPoint | Assets/Scripts/OceanBuoyancy.cs:285-291 | the per-point loop makes exactly one call per submerged point, each a tenth of that point's force at its world position |
| PointBuoyancy.ShareBounds | Assets/Scripts/OceanBuoyancy.cs:313-325 | the submerged share lies in `[0, 1]`. It is 0 when no point is submerged or the list is empty, and 1 when every point is |
| PointBuoyancy.PointsAlong | Assets/Scripts/OceanBuoyancy.cs:123-124 | at least two points per axis: two, or `round(extent / 2)` |
| PointBuoyancy.GridCoordinateInside | Assets/Scripts/OceanBuoyancy.cs:131-133 | grid coordinates stay within half the extent on either side of the centre |
| PointBuoyancy.GridColumn | Assets/Scripts/OceanBuoyancy.cs:128-141 | the inner loop makes `z` points |
| PointBuoyancy.GridColumnPlaced | Assets/Scripts/OceanBuoyancy.cs:128-141 | every point of a column lies inside the collider's box horizontally, 0.3 of its height below the centre, with the shared radius and no volume |
| PointBuoyancy.GridRowsPlaced | Assets/Scripts/OceanBuoyancy.cs:126-142 | `x` complete columns hold `x · pointsZ` points, all placed that way |
| PointBuoyancy.DefaultGridShape | Assets/Scripts/OceanBuoyancy.cs:113-144 | the default grid has `pointsX · pointsZ >= 4` points, all placed that way |
| PointBuoyancy.ShouldUpdateWhenDueOrMoving | Assets/Scripts/OceanBuoyancy.cs:159-175 | with a positive frequency, a step runs exactly when it is due, when the body moved more than 0.1, or when it turned more than 5 degrees. So a due step always runs, and a body at rest never runs early |
| PointBuoyancy.OceanBuoyancy.constructor | Assets/Scripts/OceanBuoyancy.cs:44-68 | a component starts with its settings and points, a zero start index and zero totals, and no calls made |
| PointBuoyancy.OceanBuoyancy.GenerateDefaultBuoyancyPoints | Assets/Scripts/OceanBuoyancy.cs:113-144 | appends the default grid when there is a collider and nothing otherwise. The totals, the start index and the calls are unchanged |
| PointBuoyancy.OceanBuoyancy.UpdateBuoyancyPoint | Assets/Scripts/OceanBuoyancy.cs:212-259 | replaces the point at `index` by its updated version, adds its share to the totals, and changes nothing else |
| PointBuoyancy.OceanBuoyancy.UpdateBuoyancyPhysics | Assets/Scripts/OceanBuoyancy.cs:177-210 | records the time and position. The points become the scheduled update of the old list, and the totals are the sum over the schedule, with the centre dividing the moment by a positive volume. The start index moves on round-robin (and stays inside the list). With asynchronous sampling and no points the step fails, as the `% 0` would throw |
| PointBuoyancy.OceanBuoyancy.SampleScheduled | Assets/Scripts/OceanBuoyancy.cs:194-200 | the sampling loop, run on zero totals, leaves the scheduled update of the list and its summed totals |
| PointBuoyancy.OceanBuoyancy.ApplyForces | Assets/Scripts/OceanBuoyancy.cs:269-292 | appends no calls when nothing is submerged. Otherwise it appends the total buoyancy at the centre, the total drag, the angular drag and one tenth-force per submerged point, in that order. Nothing else changes |
| PointBuoyancy.OceanBuoyancy.Start | Assets/Scripts/OceanBuoyancy.cs:70-111 | a body without points gets the default grid, and the time and position are recorded |
| PointBuoyancy.OceanBuoyancy.FixedUpdate | Assets/Scripts/OceanBuoyancy.cs:146-157 | does nothing without an ocean or rigid body, or when no step is due. A due step updates exactly the round-robin batch `StepSchedule` picks from the old start (`Sampled`), sets the totals to that batch's `Accumulate` and the centre of buoyancy to its volume-weighted mean, moves the start on by `NextStart` in asynchronous mode with a non-empty list, and then applies exactly the forces `ApplyForces` describes, except when it failed on an empty list |
| PointBuoyancy.OceanBuoyancy.GetSubmergedPercentage | Assets/Scripts/OceanBuoyancy.cs:313-325 | returns the share of submerged points, a fraction in `[0, 1]` |
| GpuBuoyancy.BufferSize | Assets/Scripts/OceanBuoyancyGPU.cs:94 | the buffer holds `min(maxGPUSamples, count)` entries: no more than either, and equal to one of them |
| GpuBuoyancy.RoundRobin | Assets/Scripts/OceanBuoyancyGPU.cs:191-224 | entry `i` of a batch of `n` belongs to point `(currentSampleIndex + i) % count` |
| GpuBuoyancy.RoundRobinValid | Assets/Scripts/OceanBuoyancyGPU.cs:191-227 | a batch no longer than the list names valid, pairwise distinct points. The next start index is a valid index, right after the batch's last point |
| GpuBuoyancy.RoundRobinStep | Assets/Scripts/OceanBuoyancyGPU.cs:221-224 | one more loop turn extends the batch by point `(currentSampleIndex + i) % count` |
| GpuBuoyancy.SlammingOnlyAboveThreshold | Assets/Scripts/OceanBuoyancyGPU.cs:306-312 | no slamming force up to an intensity of 0.1. Above it the force is straight up, never downward, and strictly upward for positive volume and density |
| GpuBuoyancy.ProductSign | Assets/Scripts/OceanBuoyancyGPU.cs:310 | the slamming magnitude `k · volume · density · 50` keeps the sign of its factors |
| GpuBuoyancy.NoVolumeNoWaveForce | Assets/Scripts/OceanBuoyancyGPU.cs:301-323 | a point without submerged volume feels no wave force |
| GpuBuoyancy.MovingWithWaterOnlyDrift | Assets/Scripts/OceanBuoyancyGPU.cs:301-323 | a point moving with the water feels only the wave drift: no slamming and no added mass |
| GpuBuoyancy.ScaleZero | Assets/Scripts/OceanBuoyancyGPU.cs:319 | the added-mass reaction of a point at rest relative to the water is zero |
| GpuBuoyancy.DrySampleNoForce | Assets/Scripts/OceanBuoyancyGPU.cs:292-296 | a sample whose water is not above it leaves the point with no volume and no force, and adds nothing to the totals |
| GpuBuoyancy.SampledVolume | Assets/Scripts/OceanBuoyancyGPU.cs:256-299 | a processed point's volume is what it adds to the volume total. It lies between 0 and the whole sphere, and is positive exactly when the sample is wet (for a positive radius) |
| GpuBuoyancy.SampledPointMatchesShare | Assets/Scripts/OceanBuoyancyGPU.cs:256-299 | a processed point's own force is exactly what it adds to the buoyancy and drag totals, wave force included |
| GpuBuoyancy.NoWaveForcesNoDrag | Assets/Scripts/OceanBuoyancyGPU.cs:256-299 | without wave forces a wet sample adds no drag and only its buoyancy along the sampled normal |
| GpuBuoyancy.SampledKeepsShape | Assets/Scripts/OceanBuoyancyGPU.cs:256-299 | processing keeps the point's place on the body and its radius. Points of equal place and radius add the same for the same sample |
| GpuBuoyancy.CpuAndGpuAgree | Assets/Scripts/OceanBuoyancyGPU.cs:256-299 | a GPU result that reports the CPU's own sample adds the same volume, moment and drag as the CPU path. Without wave forces it adds exactly the same and leaves the same point |
| GpuBuoyancy.CpuShareIsContribution | Assets/Scripts/OceanBuoyancyGPU.cs:352-398 | a wet point updated on the CPU adds exactly the sphere-point share of `OceanBuoyancy` for that scene |
| GpuBuoyancy.CpuDryAddsNothing | Assets/Scripts/OceanBuoyancyGPU.cs:367-371 | a dry point updated on the CPU adds nothing to the totals |
| GpuBuoyancy.CpuSampledMatchesShare | Assets/Scripts/OceanBuoyancyGPU.cs:352-372 | a CPU-updated point keeps its place and radius, and its volume is what it adds to the volume total |
| GpuBuoyancy.CpuSampledForce | Assets/Scripts/OceanBuoyancyGPU.cs:352-396 | a CPU-updated point's force is what it adds to the buoyancy and drag totals: unlike `OceanBuoyancy`, no viscosity term |
| GpuBuoyancy.AddZero | Assets/Scripts/OceanBuoyancyGPU.cs:388 | adding the zero vector changes nothing |
| GpuBuoyancy.ContributionByShape | Assets/Scripts/OceanBuoyancyGPU.cs:352-372 | what a CPU-updated point adds depends only on its place and radius |
| GpuBuoyancy.Results | Assets/Scripts/OceanBuoyancyGPU.cs:191-218 | the read-back holds one entry per batch point: the shader's answer to that point's upload entry |
| GpuBuoyancy.Processed | Assets/Scripts/OceanBuoyancyGPU.cs:221-225 | processing the results keeps the list's length |
| GpuBuoyancy.StoredVelocities | Assets/Scripts/OceanBuoyancyGPU.cs:285-289 | the velocity store keeps its length |
| GpuBuoyancy.ProcessStep | Assets/Scripts/OceanBuoyancyGPU.cs:221-225 | one more result replaces its point by the processed point, adds its contribution to the totals and stores its water velocity |
| GpuBuoyancy.InListPrefix | Assets/Scripts/OceanBuoyancyGPU.cs:221-225 | a prefix of a batch names points of the list |
| GpuBuoyancy.ProcessedKeepsShape | Assets/Scripts/OceanBuoyancyGPU.cs:221-225 | processing a batch keeps every point's place on the body and its radius |
| GpuBuoyancy.ProcessedPointwise | Assets/Scripts/OceanBuoyancyGPU.cs:221-225 | with each point in the batch once, every batch point is processed from its own result and every other point is unchanged |
| GpuBuoyancy.StoredVelocitiesPointwise | Assets/Scripts/OceanBuoyancyGPU.cs:272-289 | without wave forces the store is untouched. Entries outside the batch keep their value, and a wet batch point stores its sample's water velocity |
| GpuBuoyancy.SampleVolumeSign | Assets/Scripts/OceanBuoyancyGPU.cs:180-229 | a batch adds a non-negative total volume when no radius is negative |
| GpuBuoyancy.DryBatchAddsNothing | Assets/Scripts/OceanBuoyancyGPU.cs:292-296 | a batch whose every sample is dry adds nothing to the totals |
| GpuBuoyancy.AddNothing | Assets/Scripts/OceanBuoyancyGPU.cs:367-371 | adding no contribution leaves the totals as they were |
| GpuBuoyancy.CpuSampled | Assets/Scripts/OceanBuoyancyGPU.cs:338-344 | the CPU fallback keeps the list's length |
| GpuBuoyancy.CpuSampledKeepsShape | Assets/Scripts/OceanBuoyancyGPU.cs:338-344 | the CPU fallback keeps every point's place on the body and its radius |
| GpuBuoyancy.CpuSampledPointwise | Assets/Scripts/OceanBuoyancyGPU.cs:338-344 | after the fallback every scheduled point is updated from its original, and every other point is unchanged |
| GpuBuoyancy.CpuSampleStep | Assets/Scripts/OceanBuoyancyGPU.cs:338-344 | one more loop turn updates the next scheduled point in place and adds its share to the totals |
| GpuBuoyancy.CpuResampleSame | Assets/Scripts/OceanBuoyancyGPU.cs:352-372 | updating an updated point again in the same scene gives the same point |
| GpuBuoyancy.HullPointsAlong | Assets/Scripts/OceanBuoyancyGPU.cs:119-120 | at least three points per axis: three, or `round(extent / 3)` |
| GpuBuoyancy.HullStack | Assets/Scripts/OceanBuoyancyGPU.cs:127-142 | the innermost loop makes `y` points |
| GpuBuoyancy.HullStackPlaced | Assets/Scripts/OceanBuoyancyGPU.cs:127-142 | each layer's point lies inside the collider's box horizontally, at its layer's height, with the shared radius and no volume |
| GpuBuoyancy.ConcatPlaced | Assets/Scripts/OceanBuoyancyGPU.cs:137 | appending placed points keeps every point placed |
| GpuBuoyancy.HullRowPlaced | Assets/Scripts/OceanBuoyancyGPU.cs:125-143 | `x` cells hold `2x` points, all placed |
| GpuBuoyancy.HullRowsPlaced | Assets/Scripts/OceanBuoyancyGPU.cs:123-144 | `z` rows hold `z · width · 2` points, all placed |
| GpuBuoyancy.HullPointsShape | Assets/Scripts/OceanBuoyancyGPU.cs:116-145 | the hull gets `length · width · 2 >= 18` points, all placed |
| GpuBuoyancy.GpuForceCallsShape | Assets/Scripts/OceanBuoyancyGPU.cs:416-449 | a dry body gets no call. A wet one gets the buoyancy at the centre, then the drag, then torques only: four calls, or five when it rolls more than 5 degrees |
| GpuBuoyancy.AntiRollAxis | Assets/Scripts/OceanBuoyancyGPU.cs:441 | the anti-roll axis is perpendicular to both the body's up axis and world up |
| GpuBuoyancy.ThreadGroups | Assets/Scripts/OceanBuoyancyGPU.cs:214 | `ceil(n / 64)` groups of 64 threads cover every sample, with fewer than 64 threads to spare |
| GpuBuoyancy.OceanBuoyancyGPU.constructor | Assets/Scripts/OceanBuoyancyGPU.cs:22-54 | a component starts with its settings and points, no buffer and no velocity store, zero totals and no calls |
| GpuBuoyancy.OceanBuoyancyGPU.GenerateHullBuoyancyPoints | Assets/Scripts/OceanBuoyancyGPU.cs:116-145 | appends exactly the hull points, in loop order, and changes nothing else |
| GpuBuoyancy.OceanBuoyancyGPU.GenerateDefaultBuoyancyPoints | Assets/Scripts/OceanBuoyancyGPU.cs:103-114 | appends the hull points when there is a collider and nothing otherwise |
| GpuBuoyancy.OceanBuoyancyGPU.InitializeBuoyancy | Assets/Scripts/OceanBuoyancyGPU.cs:62-82 | a body without points gets the hull points. Then a fresh velocity store holds one zero per point, and the time and position are recorded |
| GpuBuoyancy.OceanBuoyancyGPU.InitializeGPUResources | Assets/Scripts/OceanBuoyancyGPU.cs:84-101 | with GPU sampling, a shader and a positive size, a fresh buffer of `min(maxGPUSamples, count)` entries goes live. Otherwise the buffer state is unchanged |
| GpuBuoyancy.OceanBuoyancyGPU.Start | Assets/Scripts/OceanBuoyancyGPU.cs:56-60 | establishes `Valid`: one stored velocity per point. With GPU sampling, a shader and a positive size, a fresh buffer of exactly `min(maxGPUSamples, count)` entries goes live; otherwise the buffer is the one the body had |
| GpuBuoyancy.OceanBuoyancyGPU.CalculateBuoyancyForPoint | Assets/Scripts/OceanBuoyancyGPU.cs:374-398 | returns the point with its volume and force, and adds exactly its share to the totals. Nothing else changes |
| GpuBuoyancy.OceanBuoyancyGPU.ProcessGPUSampleResult | Assets/Scripts/OceanBuoyancyGPU.cs:256-299 | replaces the point by the processed point and adds its contribution, wave force included. It stores the water velocity when wave forces are on, and changes nothing else |
| GpuBuoyancy.OceanBuoyancyGPU.UploadSamples | Assets/Scripts/OceanBuoyancyGPU.cs:191-204 | buffer entry `i` holds the upload entry of batch point `i`: its world position, zero height, normal up |
| GpuBuoyancy.OceanBuoyancyGPU.RunSampler | Assets/Scripts/OceanBuoyancyGPU.cs:207-218 | with threads for every sample, each of the first `n` entries becomes the shader's answer to it, and the rest are unchanged |
| GpuBuoyancy.OceanBuoyancyGPU.ProcessResults | Assets/Scripts/OceanBuoyancyGPU.cs:221-225 | on zero totals, the points, the totals and the velocity store become the batch's processing of the read-back |
| GpuBuoyancy.OceanBuoyancyGPU.ProcessNext | Assets/Scripts/OceanBuoyancyGPU.cs:221-225 | one loop turn integrates result `i` into its point and extends the done prefix by one |
| GpuBuoyancy.OceanBuoyancyGPU.SampleBatch | Assets/Scripts/OceanBuoyancyGPU.cs:189-218 | the results read back are the shader's answers for the batch's points, in batch order |
| GpuBuoyancy.OceanBuoyancyGPU.UpdateBuoyancyPhysicsGPU | Assets/Scripts/OceanBuoyancyGPU.cs:180-229 | records the time and position and processes a batch of `samplePointsArray.Length` points, starting round-robin at the old index. The points, velocity store and totals are exactly that batch's, and the centre divides the moment by a positive volume. The index moves on by the batch size, modulo the count. `Valid` is kept and no force is applied |
| GpuBuoyancy.OceanBuoyancyGPU.ResetPhysicsData | Assets/Scripts/OceanBuoyancyGPU.cs:400-406 | zeroes the totals and the moment, and nothing else |
| GpuBuoyancy.OceanBuoyancyGPU.CalculateCenterOfBuoyancy | Assets/Scripts/OceanBuoyancyGPU.cs:408-414 | the centre becomes the moment divided by the volume when that is positive. Nothing else changes |
| GpuBuoyancy.OceanBuoyancyGPU.UpdateBuoyancyPointCPU | Assets/Scripts/OceanBuoyancyGPU.cs:352-372 | replaces the point by its CPU update, adds its sphere-point share to the totals, and changes nothing else |
| GpuBuoyancy.OceanBuoyancyGPU.UpdateBuoyancyPhysicsCPU | Assets/Scripts/OceanBuoyancyGPU.cs:325-350 | records the time and position. The points and totals are the scheduled CPU update and its sum, the centre is the volume-weighted mean and the index moves on round-robin. With asynchronous sampling and no points the step fails at the `% 0` |
| GpuBuoyancy.OceanBuoyancyGPU.CpuSampleScheduled | Assets/Scripts/OceanBuoyancyGPU.cs:338-344 | the CPU loop, run on zero totals, leaves the scheduled update of the list and its summed totals |
| GpuBuoyancy.OceanBuoyancyGPU.ApplyForces | Assets/Scripts/OceanBuoyancyGPU.cs:416-433 | appends nothing while nothing is submerged. Otherwise it appends the total buoyancy at the centre, the drag, the angular drag and the stability torques. No state but the calls changes |
| GpuBuoyancy.OceanBuoyancyGPU.ApplyStabilityForces | Assets/Scripts/OceanBuoyancyGPU.cs:435-449 | appends the anti-roll torque (only past 5 degrees of roll), then the pitch damping |
| GpuBuoyancy.OceanBuoyancyGPU.FixedUpdate | Assets/Scripts/OceanBuoyancyGPU.cs:147-178 | keeps `Valid`, the buffer state and the velocity store object. It does nothing without an ocean or rigid body, or when no step is due, and then the stored velocities are kept too. A due step with GPU sampling on and a live buffer processes the round-robin batch of buffer length from the old start with the shader's answers (`Processed`, `StoredVelocities`, `SampleTotals`, centre of buoyancy) and moves the start on by the buffer length modulo the count. Otherwise it runs the CPU step: the `StepSchedule` batch is sampled (`CpuSampled`), the totals are its `Accumulate`, the velocity store is unchanged and the start moves by `NextStart` in asynchronous mode. It then applies exactly `ApplyForces`' calls, except after a failed CPU step |
| GpuBuoyancy.OceanBuoyancyGPU.GetSubmergedPercentage | Assets/Scripts/OceanBuoyancyGPU.cs:477-489 | returns the share of submerged points, a fraction in `[0, 1]` |
| GpuBuoyancy.OceanBuoyancyGPU.OnDestroy | Assets/Scripts/OceanBuoyancyGPU.cs:491-498 | releases the buffer and changes nothing else |
| SimpleFloat.DefaultSettingsValid | Assets/Scripts/SimpleBuoyancy.cs:10-28 | the inspector defaults meet the model's settings assumptions, with five buoyancy points |
| SimpleFloat.ObjectHeight | Assets/Scripts/SimpleBuoyancy.cs:249-267 | the collider's height when there is one, and 2 when there is neither collider nor renderer |
| SimpleFloat.SinglePointFraction | Assets/Scripts/SimpleBuoyancy.cs:106-124 | the single-point submerged share lies in `[0, 1]` |
| SimpleFloat.SinglePointFractionShare | Assets/Scripts/SimpleBuoyancy.cs:106-124 | the share is 1 with the top below the water and 0 with the bottom above it. In between it is exactly the covered part of the height |
| SimpleFloat.CoveredShare | Assets/Scripts/SimpleBuoyancy.cs:121-122 | a covered depth within the height is a share in `[0, 1]` |
| SimpleFloat.SinglePointFractionRises | Assets/Scripts/SimpleBuoyancy.cs:106-124 | higher water never leaves the body less submerged |
| SimpleFloat.QuotientMono | Assets/Scripts/SimpleBuoyancy.cs:122-156 | dividing by a positive height keeps the order of the covered depths |
| SimpleFloat.PointSubmersion | Assets/Scripts/SimpleBuoyancy.cs:146-158 | a point's share of its quarter-height span lies in `[0, 1]`. It is 0 with the span's bottom at or above the water and 1 with its top below |
| SimpleFloat.PointSubmersionRises | Assets/Scripts/SimpleBuoyancy.cs:146-158 | higher water never leaves a point less submerged |
| SimpleFloat.PointForceMagnitude | Assets/Scripts/SimpleBuoyancy.cs:164-165 | a point's force magnitude is `ρ·V·g` capped at an n-th of the maximum force |
| SimpleFloat.ShareVolumeBounds | Assets/Scripts/SimpleBuoyancy.cs:160-176 | a point's volume lies between none and an n-th of the multiplied object volume |
| SimpleFloat.SharesOf | Assets/Scripts/SimpleBuoyancy.cs:135-177 | the loop yields one share per point, each the share of that point |
| SimpleFloat.TotalsStep | Assets/Scripts/SimpleBuoyancy.cs:135-177 | one more loop turn adds the next point's force, torque and volume to the sums |
| SimpleFloat.VolumeProduct | Assets/Scripts/SimpleBuoyancy.cs:163 | a point's volume with a share in `[0, 1]` is at most its cap |
| SimpleFloat.SumVolumeBounds | Assets/Scripts/SimpleBuoyancy.cs:175 | volumes of at most `cap` each sum to at most `count · cap` |
| SimpleFloat.AddBelowCap | Assets/Scripts/SimpleBuoyancy.cs:175 | adding one capped volume raises the bound by one cap |
| SimpleFloat.TotalVolumeBounds | Assets/Scripts/SimpleBuoyancy.cs:126-177 | the summed volume lies between 0 and the number of points times the per-point cap |
| SimpleFloat.AllPointsVolumeBound | Assets/Scripts/SimpleBuoyancy.cs:126-181 | with every point counted, the submerged volume is at most the object volume times the multiplier |
| SimpleFloat.CapsAddUp | Assets/Scripts/SimpleBuoyancy.cs:163 | `n` per-point caps make up the whole multiplied object volume |
| SimpleFloat.DryShare | Assets/Scripts/SimpleBuoyancy.cs:149-160 | a point whose span lies at or above the water adds nothing |
| SimpleFloat.SumOfNothing | Assets/Scripts/SimpleBuoyancy.cs:128-130 | empty shares sum to the zero totals the loop starts from |
| SimpleFloat.NoShareNeutral | Assets/Scripts/SimpleBuoyancy.cs:128-130 | adding nothing to nothing gives nothing |
| SimpleFloat.AllDryNoForce | Assets/Scripts/SimpleBuoyancy.cs:126-177 | when every point is dry the totals are zero: no force, no torque, no volume |
| SimpleFloat.MultiPointFraction | Assets/Scripts/SimpleBuoyancy.cs:180-181 | the overall share lies in `[0, 1]` |
| SimpleFloat.SingleForceMagnitude | Assets/Scripts/SimpleBuoyancy.cs:200-202 | the single-point force magnitude never exceeds the maximum force |
| SimpleFloat.NonNegProduct | Assets/Scripts/SimpleBuoyancy.cs:200-201 | a product of non-negative factors is non-negative |
| SimpleFloat.SingleForceMagnitudeRises | Assets/Scripts/SimpleBuoyancy.cs:200-202 | the single-point magnitude is never negative and grows with the submerged share |
| SimpleFloat.ForceCallsShape | Assets/Scripts/SimpleBuoyancy.cs:209-247 | a force of magnitude 0.1 or less yields no call. A larger one yields three to five calls, led by the force itself. Single-point mode yields none or exactly three |
| SimpleFloat.SimpleBuoyancy.constructor | Assets/Scripts/SimpleBuoyancy.cs:10-42 | a component starts with its settings, no share, the normal up, zero force, torque and counter, and no calls |
| SimpleFloat.SimpleBuoyancy.FloatingOrUnderwater | Assets/Scripts/SimpleBuoyancy.cs:306-314 | floating and under water exclude each other. Under water means a share of exactly 1, and neither means a share of 0 |
| SimpleFloat.SimpleBuoyancy.CalculateSubmersionSinglePoint | Assets/Scripts/SimpleBuoyancy.cs:106-124 | sets the share to the single-point fraction at the stored water height, in `[0, 1]`, and nothing else |
| SimpleFloat.SimpleBuoyancy.SamplePoints | Assets/Scripts/SimpleBuoyancy.cs:135-177 | the loop's force, torque and volume sums are the totals of all points' shares |
| SimpleFloat.SimpleBuoyancy.CalculateMultiPointBuoyancy | Assets/Scripts/SimpleBuoyancy.cs:126-187 | the force and torque are the points' totals. The share is the total volume against the object's, and the stored water data is the sample under the body |
| SimpleFloat.SimpleBuoyancy.UpdateWaterData | Assets/Scripts/SimpleBuoyancy.cs:84-104 | without sampling nothing changes. Single-point mode samples under the body and sets its fraction; multi-point mode samples every point. The share stays in `[0, 1]` |
| SimpleFloat.SimpleBuoyancy.CalculateBuoyancy | Assets/Scripts/SimpleBuoyancy.cs:189-207 | multi-point mode keeps the sampled force. Single-point mode sets zero force on no share (keeping the torque), otherwise the capped magnitude along the normal with zero torque |
| SimpleFloat.SimpleBuoyancy.ApplyBuoyancyForce | Assets/Scripts/SimpleBuoyancy.cs:209-247 | appends exactly the step's calls: the force, the torque, the damping and the righting torque, each under its condition. Nothing else changes |
| SimpleFloat.SimpleBuoyancy.ApplyRightingTorque | Assets/Scripts/SimpleBuoyancy.cs:230-245 | in multi-point mode a body with uprightness below 0.9 gets one torque about `up × world up`. Nothing else changes |
| SimpleFloat.SimpleBuoyancy.FixedUpdate | Assets/Scripts/SimpleBuoyancy.cs:66-82 | keeps the share in `[0, 1]`. It does nothing without a rigid body or ocean; otherwise it advances the counter. On an even count it re-samples the water under the body and sets the share to `SinglePointFraction` (single point) or the force, torque and share to the `Totals` over all points (multi-point); on an odd count it keeps the water data. In single-point mode the force is zero (torque kept) when nothing is submerged, else the capped magnitude along the normal. It appends exactly the step's calls |
| SimpleFloat.SamplesEverySecondStep | Assets/Scripts/SimpleBuoyancy.cs:42-72 | of two consecutive counts exactly one samples |
| StormControl.DefaultPresetsInRange | Assets/Scripts/OceanStormController.cs:144-152 | every built-in preset sits on the sliders, and the presets grow strictly stormier in the order listed |
| StormControl.FirstPreset | Assets/Scripts/OceanStormController.cs:343-353 | finds the first preset with the name, and finds none exactly when no preset has it |
| StormControl.FirstPresetFrom | Assets/Scripts/OceanStormController.cs:345-352 | the search from position `k` finds the first match at or after `k`, and none exactly when no later preset matches |
| StormControl.QuickPresetsByName | Assets/Scripts/OceanStormController.cs:374-377 | with the built-in presets, the quick calls reach presets 0, 2, 4 and 5 |
| StormControl.WindSpeed | Assets/Scripts/OceanStormController.cs:266-267 | the wind speed lies in 5–50 m/s |
| StormControl.WaveChopyFactor | Assets/Scripts/OceanStormController.cs:272-273 | the chop factor lies in 0.1–2 |
| StormControl.FoamIntensity | Assets/Scripts/OceanStormController.cs:276 | the foam intensity lies in 0–2 |
| StormControl.FoamDecay | Assets/Scripts/OceanStormController.cs:277 | the foam decay lies in 0.05–0.2 |
| StormControl.Swell | Assets/Scripts/OceanStormController.cs:279-280 | the swell lies in 0.2–0.8 |
| StormControl.WindSpeedRises | Assets/Scripts/OceanStormController.cs:267 | stronger wind never gives a lower wind speed |
| StormControl.FoamRisesAndLasts | Assets/Scripts/OceanStormController.cs:276-277 | more foam gives at least as much intensity and at most as much decay |
| StormControl.SwellFalls | Assets/Scripts/OceanStormController.cs:280 | a stormier sea never has more swell |
| StormControl.WaveScaleBounds | Assets/Scripts/OceanStormController.cs:292-302 | on the storm slider, a cascade's scale lies between its low end and its high end stretched by the full storm gain |
| StormControl.StretchBounds | Assets/Scripts/OceanStormController.cs:298-302 | a base scale within its range, stretched by at most the gain, stays within the stretched range |
| StormControl.WaveScaleRisesWithWaves | Assets/Scripts/OceanStormController.cs:292-302 | bigger waves never shrink a cascade |
| StormControl.WaveScaleRisesWithStorm | Assets/Scripts/OceanStormController.cs:297-302 | a stormier sea never shrinks a cascade |
| StormControl.CascadeScalesInRange | Assets/Scripts/OceanStormController.cs:289-310 | the rounded length scales stay within 20–150, 100–680 and 300–1040 |
| StormControl.Repeat | Assets/Scripts/OceanStormController.cs:252 | Mathf.Repeat's result lies in `[0, length]` |
| StormControl.ShortestTurn | Assets/Scripts/OceanStormController.cs:252 | LerpAngle's turn is the difference of the angles shifted by whole turns, and lies in `[-180, 180]` |
| StormControl.LerpAngleShortWay | Assets/Scripts/OceanStormController.cs:252 | a step of LerpAngle never turns by more than half a circle |
| StormControl.LerpAngleArrives | Assets/Scripts/OceanStormController.cs:252 | a full step of LerpAngle lands on the target direction, up to whole turns |
| StormControl.TransitionBetween | Assets/Scripts/OceanStormController.cs:245-255 | a smoothing step keeps each percentage between its old value and its control, and keeps all of them on the sliders |
| StormControl.TransitionArrives | Assets/Scripts/OceanStormController.cs:245-255 | a step of a whole frame or more reaches the controls, the direction up to whole turns |
| StormControl.TransitionSettled | Assets/Scripts/OceanStormController.cs:245-255 | once the targets equal the controls, smoothing leaves them there |
| StormControl.ChangedOnlyWhenDifferent | Assets/Scripts/OceanStormController.cs:466-474 | a change is reported only when the targets differ from the cache |
| StormControl.SliderMoveNoticed | Assets/Scripts/OceanStormController.cs:468 | on a slider no wider than 360, values a thousandth or more apart are not approximately equal |
| StormControl.SliderChangeNoticed | Assets/Scripts/OceanStormController.cs:466-474 | moving any slider by a thousandth or more is reported as a change |
| StormControl.WeatherMonotone | Assets/Scripts/OceanStormController.cs:391-400 | a stormier sea is never described as calmer |
| StormControl.PresetsDescribeThemselves | Assets/Scripts/OceanStormController.cs:391-400 | each built-in preset is described by the state of its own rank |
| StormControl.OceanSettings.constructor | Assets/Scripts/OceanStormController.cs:257-281 | fresh ocean settings start at zero in every field the controller writes |
| StormControl.CascadeSettings.constructor | Assets/Scripts/OceanStormController.cs:307-309 | a cascade starts with the given length scale |
| StormControl.OceanStormController.constructor | Assets/Scripts/OceanStormController.cs:59-152 | starts with the inspector defaults, the built-in presets, smoothing at speed 1, zero targets and cache, the given wiring, and no rebuilds |
| StormControl.OceanStormController.SetStormIntensity | Assets/Scripts/OceanStormController.cs:323-326 | sets the intensity to the value clamped into `[0, 100]`. All else is unchanged |
| StormControl.OceanStormController.SetWaveSize | Assets/Scripts/OceanStormController.cs:328-331 | sets the wave size to the value clamped into `[0, 100]`. All else is unchanged |
| StormControl.OceanStormController.SetWindStrength | Assets/Scripts/OceanStormController.cs:333-336 | sets the wind strength to the value clamped into `[0, 100]`. All else is unchanged |
| StormControl.OceanStormController.SetWindDirection | Assets/Scripts/OceanStormController.cs:338-341 | the new direction is the old one by whole turns, within one turn of zero and with the old one's sign (truncated `%`). All else is unchanged |
| StormControl.OceanStormController.ApplyPreset | Assets/Scripts/OceanStormController.cs:355-363 | the controls become the preset's values and nothing else changes |
| StormControl.OceanStormController.ApplyPresetByIndex | Assets/Scripts/OceanStormController.cs:365-371 | an index in range applies that preset; any other leaves everything unchanged |
| StormControl.OceanStormController.ApplyPresetNamed | Assets/Scripts/OceanStormController.cs:343-353 | applies the first preset with the name; with none, nothing changes |
| StormControl.OceanStormController.SetCalm | Assets/Scripts/OceanStormController.cs:374 | the controls become the first preset named "Calm" in the current table, and stay as they were when none has that name; with the built-in presets that is the calm preset |
| StormControl.OceanStormController.SetModerate | Assets/Scripts/OceanStormController.cs:375 | the controls become the first preset named "Moderate" in the current table, and stay as they were when none has that name; with the built-in presets that is the moderate preset |
| StormControl.OceanStormController.SetStorm | Assets/Scripts/OceanStormController.cs:376 | the controls become the first preset named "Storm" in the current table, and stay as they were when none has that name; with the built-in presets that is the storm preset |
| StormControl.OceanStormController.SetHurricane | Assets/Scripts/OceanStormController.cs:377 | the controls become the first preset named "Hurricane" in the current table, and stay as they were when none has that name; with the built-in presets that is the hurricane preset |
| StormControl.OceanStormController.ApplyStormSettings | Assets/Scripts/OceanStormController.cs:257-287 | with a generator and settings, the ocean shows the mapped targets and one rebuild is requested. Otherwise nothing of the ocean changes |
| StormControl.OceanStormController.UpdateCascadeScales | Assets/Scripts/OceanStormController.cs:289-310 | each present cascade gets its rounded, storm-stretched length scale |
| StormControl.OceanStormController.ForceOceanUpdate | Assets/Scripts/OceanStormController.cs:312-320 | one rebuild is requested exactly when a generator is attached |
| StormControl.OceanStormController.Start | Assets/Scripts/OceanStormController.cs:203-218 | the targets jump to the controls and are applied to the ocean, with one rebuild; without a generator or its settings no ocean object changes and nothing is rebuilt |
| StormControl.OceanStormController.UpdateTransitions | Assets/Scripts/OceanStormController.cs:245-255 | the targets take one smoothing step towards the controls, scaled by frame time and transition speed |
| StormControl.OceanStormController.Update | Assets/Scripts/OceanStormController.cs:220-243 | the targets move (smoothly or at once). Only on a reported change are they applied to the ocean and cached. Otherwise cache and ocean stay untouched; without a generator or its settings the ocean objects never change |
| StormControl.OceanStormController.OnStormParameterChanged | Assets/Scripts/OceanStormController.cs:402-416 | without smoothing the targets follow the controls and are applied at once; with smoothing nothing changes; without a generator or its settings the ocean objects never change |
| StormControl.OceanStormController.CacheLastValues | Assets/Scripts/OceanStormController.cs:476-484 | the cache becomes the targets, so no change is reported until they move |

## Left out

- Floating point: every `float` is a `real`. Rounding, NaN, infinities and overflow are not modelled, and `Mathf.Approximately` is modelled on reals: a relative tolerance of one millionth with a floor of eight times the smallest positive float.
- Vector lengths are compared through their squares (`sqrMagnitude`) where the scripts compare `magnitude` against a constant. `Vector3.Normalize` is not modelled: `SampleOceanNormal` returns the unnormalised `(-Σdx, 1, -Σdz)`, whose direction is the normal's.
- Integer widths: counters and indices (`sampleFrameCounter`, `currentSampleIndex`, `trisIndex`, `vertIndex`) are unbounded, so 32-bit wrap-around after very long runs is not modelled.
- `maxSamplesPerFrame` is a `nat`: negative inspector values are not modelled. `maxGPUSamples` is an `int`: a value of zero or less gives `BufferSize` at most zero, so no buffer is created and every step falls back to the CPU.
- Engine lookups in the `Start` methods (`GetComponent`, `FindObjectOfType`, auto-finding the generator) become constructor and method parameters saying whether the component is present.
- `SimpleBuoyancy.Start`'s setting of the rigid body's own damping and its mass warning is not modelled. Only the calls made each physics step are recorded.
- The rigid body and the scene are inputs: transforms, point velocities, the rotation since the last step (`Quaternion.Angle`) and the roll angle (`Vector3.Angle`) are parameters. The forces and torques the scripts apply are a recorded list of calls.
- `SendMessage("OnValidate")` is modelled as a count of rebuild requests; the generator's rebuild itself is not part of this model.
- `GetOceanSettings` and `GetCascadeSettings` return the settings objects handed to the controller's constructor.
- GPU work is abstract:
  - the FFT kernels are recorded as commands and never executed;
  - the sampling shader of `OceanBuoyancyGPU` is a per-entry `Sampler` function;
  - `AsyncGPUReadback` completions are explicit, sequential events.
- `OceanBuoyancyGPU.SetOceanDataToShader` (texture and parameter binding for the shader) and `OceanBuoyancyGPU.GetWaterHeightAtPosition` (a single-point probe through the shader) are not modelled.
- `OceanBuoyancy.GetWaterHeightAtPosition` and `GetWaterNormalAtPosition` are the scene's height and normal functions; `IsPointSubmerged` is a predicate on them.
- A `ComputeBuffer` of size zero, which the engine refuses to create, is modelled as no buffer: the component then uses its CPU path.
- `BuoyancyPoint` entries are values in a sequence (Unity serialises them by value in the list), so no two entries alias.
- The `oceanHeightsKernel` of `OceanBuoyancyGPU` serves only that single-point probe and is left out with it.
- The `OceanDataReader` singleton (`Instance`) is not modelled; sampling takes the generator as a parameter.
- `OceanGeometry.GenerateRing` computes `ringResolution` and `planeStartPoint` but never uses them, so all tiles of a ring share one position (`RingGeometry.RingTilesCoincide`). The model follows the code. Game objects, mesh renderers, materials and shadow modes are not modelled.
- Colours, gizmos, `OnGUI`, `Debug.Log`, `LogDebugInfo`, `LogCurrentSettings` and the inspector debug properties are presentation only and are left out. The weather description is modelled as the `WeatherState` it names, not as its text.
- The component getters that return a field unchanged (`SimpleBuoyancy.GetWaterHeight`, `GetSubmergedPercentage`, `GetBuoyancyForce`) are the fields themselves.
- `GenerateGaussianNoise`, spectrum, cascade and blur dispatches of the generator are not part of this model: they bind parameters to compute shaders whose code is not part of this model.
- SimpleFloat.SimpleBuoyancy.constructor: requires a positive object volume and non-negative density, multiplier and force cap. With a zero volume the script's float division yields infinity or NaN, which reals cannot express.
- SimpleFloat.SimpleBuoyancy.FixedUpdate: requires a positive object height in single-point mode, for the same reason (the share divides by the height).
- SimpleFloat.SimpleBuoyancy.UpdateWaterData: same requirement as `FixedUpdate`.
- SimpleFloat.SimpleBuoyancy.CalculateSubmersionSinglePoint: requires a positive object height, for the same reason.
- VoxelBuoyancy.Buoyancy.PopulateVoxels: requires a non-zero voxel size. With 0 the script's division gives infinity or NaN and `FloorToInt` of it is undefined. A negative size is modelled; over bounds of non-negative extent it gives an empty list.
- VoxelBuoyancy.Buoyancy.SampleHeight / ReadDisplacement / OnDisplacementsReceived: require positive length scales on the three cascades. A zero scale makes the script divide by zero, giving NaN or infinity, and the index is then undefined. A negative scale is accepted by the script: the truncating `%` leaves a negative pixel index, which the texture's repeat wrap mode folds back into range. The model does not cover that case. The scales are read from the generator's cascade settings (Buoyancy.cs:134-136). When the storm controller drives those settings, the scales stay within 20 to 1040 (`StormControl.CascadeScalesInRange`).
- FftDispatch.ComputeFFT.constructor: requires a size of at least 1, since `log2` of 0 is not a number.
- CustomFftDispatch.ComputeCustomFFT.constructor: requires a size of at least 1, for the same reason.
- PlaneMesh.GeneratePlane: requires a resolution of at least 1. With 0 the script's `1f / resolution` is infinite.
- RingGeometry.GenerateHorizontal: requires a width and height of at least 1. The script only calls it with 250 × 250.
- PointBuoyancy.ShouldUpdateWhenDueOrMoving: stated for a positive update frequency only. With frequency 0 the script skips the time test, which `ShouldUpdateThisFrame` models.
