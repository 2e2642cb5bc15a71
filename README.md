# Sodium chunk meshing: smooth lighting, face culling and the quad index buffer

This project models four sequential parts of Sodium's chunk meshing in Dafny and proves
properties about them.

- **AoFaceData** holds the light and ambient occlusion of the four corners of one block face.
  It samples the face's neighbourhood from the light data cache. The rules are:
  - centre substitution for an offset sample inside a full opaque block;
  - the diagonal-versus-edge rule at each corner;
  - zero lifting, emissive override and channel-wise averaging of packed lightmap words.

  It keeps two readiness flags: light data present, and channels unpacked.
- **SmoothLightPipeline** keeps twelve face samples per block, one per (direction, offset)
  pair.
  - It resets them when the block position key changes and fills each one lazily.
  - It routes a quad by its flag bits to one of four lighting paths.
  - Per vertex, it picks the unshifted sample, the offset sample, or a depth-weighted blend of
    both.
  - It packs sky and block light into a lightmap coordinate.
- **BlockOcclusionCache** decides whether a block face must be meshed.
  - It runs a fixed chain of cheap tests on the neighbour's state and the two culling faces.
  - A final shape comparison is memoised in a table of at most 512 entries. The table is kept in
    most-recently-used order and drops its least recent entry when full.
- **SharedQuadIndexBuffer** is one index buffer shared by all quad draws.
  - It rejects requests beyond the index type's limit.
  - It grows by the rule `min(max(2 * current, request + 16384), cap)` and never shrinks.
  - It fills its storage with six indices per quad: triangles (0, 1, 2) and (2, 3, 0) over the
    quad's four vertices.

How the model represents the source:

- **Integers and bits.** Java `int` values are unbounded integers kept in the 32-bit range
  (`JavaInt.i32`). Masks and shifts are written arithmetically: `w & 0xFF` is `w % 256` and
  `(w >> 16) & 0xFF` is `(w / 65536) % 256`.
- **External collaborators** are function-valued parameters: the light data cache, the neighbour
  tables, block states, voxel shapes and the block-position key.
- **Mutable objects become classes.** `AoFaceData`, the pipeline, the occlusion cache and the
  index buffer are classes whose methods update their fields. The pipeline's twelve slots stay
  one fixed sequence of `AoFaceData` objects, each updated in place.
- **Outputs.** The float blends written to `QuadLightData` are not modelled. The pipeline
  returns a *plan* instead: which slot or slots light each vertex, and with which depth weights.

Two behaviours of the code worth knowing:

- **Route condition.** The aligned path of `calculate` is also taken by a PARALLEL quad whose
  block word carries the full-cube flag (`SmoothLight.RouteOf`).
- **Cache key.** A memo key is the *ordered* pair (self, other). `ShapeComparison` defines no
  equality of its own, so keys compare by object identity. The scratch key used for every
  lookup is never the object that is stored, so as written a lookup never hits (see Findings).
  `OcclusionCache` takes the key equality as a parameter. Every invariant is proved for both
  kinds of equality, and no hit is claimed for identity keys.

## Model

| member | source | states |
|---|---|---|
| JavaInt.Wrap | src/main/java/me/jellysquid/mods/sodium/client/model/light/smooth/AoFaceData.java:187 | Java's wrapping `int` arithmetic is the identity on values already in range. |
| JavaInt.TruncDiv | src/main/java/me/jellysquid/mods/sodium/client/render/chunk/SharedQuadIndexBuffer.java:44 | Java's `/` rounds toward zero: the quotient brackets the dividend from below for non-negative values and from above for negative ones. |
| Directions.Ordinal | src/main/java/me/jellysquid/mods/sodium/client/model/light/smooth/SmoothLightPipeline.java:174 | Each of the six directions has an ordinal below 6. |
| Directions.FromOrdinal | src/main/java/me/jellysquid/mods/sodium/client/model/light/smooth/SmoothLightPipeline.java:174 | Every ordinal below 6 belongs to a direction, so the ordinal is a bijection onto 0..5. |
| Directions.Opposite | src/main/java/me/jellysquid/mods/sodium/client/render/chunk/compile/pipeline/BlockOcclusionCache.java:43 | The opposite direction differs from the direction and has the negated offset. |
| Directions.StepOppositeReturns | src/main/java/me/jellysquid/mods/sodium/client/render/chunk/compile/pipeline/BlockOcclusionCache.java:26-43 | Stepping to the neighbour and then along the opposite face returns to the block. |
| PackedLight.BlockLight | src/main/java/me/jellysquid/mods/sodium/client/model/light/smooth/AoFaceData.java:169-171 | `unpackBlockLight` yields a value in [0, 255]. |
| PackedLight.SkyLight | src/main/java/me/jellysquid/mods/sodium/client/model/light/smooth/AoFaceData.java:165-167 | `unpackSkyLight` yields a value in [0, 255]. |
| PackedLight.ChannelMaskKeepsChannels | src/main/java/me/jellysquid/mods/sodium/client/model/light/smooth/AoFaceData.java:187 | Masking with `0xFF00FF` keeps both channels, clears every other bit, and lands in [0, 0xFF00FF]. |
| PackedLight.ChannelsDetermineWord | src/main/java/me/jellysquid/mods/sodium/client/model/light/smooth/AoFaceData.java:165-171 | Two channels-only words with equal block and sky channels are equal. |
| PackedLight.MinNonZeroIsLeastNonZero | src/main/java/me/jellysquid/mods/sodium/client/model/light/smooth/AoFaceData.java:190-194 | `minNonZero` is 0 exactly when both arguments are 0. Otherwise it returns one of its arguments, no larger than any non-zero one. |
| PackedLight.SmallestNonZeroIsLeastNonZero | src/main/java/me/jellysquid/mods/sodium/client/model/light/smooth/AoFaceData.java:174 | The nested `minNonZero` of four samples is one of them and the least non-zero one. It is 0 exactly when all four are 0. |
| PackedLight.LiftRaisesToSmallestLit | src/main/java/me/jellysquid/mods/sodium/client/model/light/smooth/AoFaceData.java:174-180 | Zero lifting never lowers a sample. It changes nothing without a zero sample or with four. With a zero, it raises every sample to at least the smallest lit one, leaving no non-negative sample unlit. |
| PackedLight.CornerBrightnessChannelsOnly | src/main/java/me/jellysquid/mods/sodium/client/model/light/smooth/AoFaceData.java:173-188 | Whatever the inputs, including wrapped sums, the corner word has no bit outside `0xFF00FF`. |
| PackedLight.ShiftedSumSplits | src/main/java/me/jellysquid/mods/sodium/client/model/light/smooth/AoFaceData.java:187 | A two-channel sum with channel sums at most 1020, shifted right by 2, yields each channel's own quotient: no carry crosses channels. |
| PackedLight.QuotientOf | src/main/java/me/jellysquid/mods/sodium/client/model/light/smooth/AoFaceData.java:187 | Division by 4, 256 or 65536 is fixed by a quotient and an in-range remainder. |
| PackedLight.ChannelsOnlySplit | src/main/java/me/jellysquid/mods/sodium/client/model/light/smooth/AoFaceData.java:165-171 | A channels-only word is its block channel plus its sky channel shifted to bits 16-23. |
| PackedLight.ChannelSum | src/main/java/me/jellysquid/mods/sodium/client/model/light/smooth/AoFaceData.java:187 | Four channels-only words add channel by channel, each channel sum at most 1020. |
| PackedLight.AverageWithoutOverflow | src/main/java/me/jellysquid/mods/sodium/client/model/light/smooth/AoFaceData.java:187 | A sum that fits in an `int` is not wrapped before the shift and mask. |
| PackedLight.AverageChannels | src/main/java/me/jellysquid/mods/sodium/client/model/light/smooth/AoFaceData.java:187 | A carry-free two-channel sum averages to each channel's floor quotient by 4. |
| PackedLight.AverageIsChannelFloor | src/main/java/me/jellysquid/mods/sodium/client/model/light/smooth/AoFaceData.java:187 | For four channels-only samples, each output channel is the floor of that channel's mean. |
| PackedLight.CornerBrightnessAveragesChannels | src/main/java/me/jellysquid/mods/sodium/client/model/light/smooth/AoFaceData.java:173-188 | With four non-zero, non-emissive channels-only inputs, each output byte is the floor of the mean of that byte. |
| PackedLight.AllZeroStaysZero | src/main/java/me/jellysquid/mods/sodium/client/model/light/smooth/AoFaceData.java:174-187 | Four unlit, non-emissive samples give 0. |
| PackedLight.EqualInputsPassThrough | src/main/java/me/jellysquid/mods/sodium/client/model/light/smooth/AoFaceData.java:173-188 | Four equal non-emissive channels-only inputs return that input unchanged. |
| PackedLight.ZeroSamplesAreLifted | src/main/java/me/jellysquid/mods/sodium/client/model/light/smooth/AoFaceData.java:174-187 | Samples that are each 0 or one lit value v give v; if all are 0 they give 0. |
| PackedLight.EmissiveSampleValueIsIgnored | src/main/java/me/jellysquid/mods/sodium/client/model/light/smooth/AoFaceData.java:174-185 | When the other three samples are lit, an emissive first sample's own value never affects the result, not even through lifting. |
| PackedLight.LiftingUsesOriginalValues | src/main/java/me/jellysquid/mods/sodium/client/model/light/smooth/AoFaceData.java:174-185 | Emission is applied after lifting. A lit emissive sample lifts the unlit samples to its original value, and only then counts as the maximum light coordinate. |
| AoFace.RowEdge | src/main/java/me/jellysquid/mods/sodium/client/model/light/smooth/AoFaceData.java:78-120 | Corners 0 and 1 border edge e0 and corners 2 and 3 border e1: always an edge below 2. |
| AoFace.ColumnEdge | src/main/java/me/jellysquid/mods/sodium/client/model/light/smooth/AoFaceData.java:78-120 | Corners 0 and 2 border edge e2 and corners 1 and 3 border e3: always edge 2 or 3. |
| AoFace.OutputCorner | src/main/java/me/jellysquid/mods/sodium/client/model/light/smooth/AoFaceData.java:122-130 | Output slots 0..3 combine corners c1, c0, c2, c3: always a corner below 4. |
| AoFace.FaceSampleOfCorners | src/main/java/me/jellysquid/mods/sodium/client/model/light/smooth/AoFaceData.java:122-130 | The four corners computed one by one, placed in output order, form the face sample that `initLightData` defines. |
| AoFace.BlockChannels | src/main/java/me/jellysquid/mods/sodium/client/model/light/smooth/AoFaceData.java:135-147 | The block-light array has one entry per corner word, equal to that word's block channel. |
| AoFace.SkyChannels | src/main/java/me/jellysquid/mods/sodium/client/model/light/smooth/AoFaceData.java:135-147 | The sky-light array has one entry per corner word, equal to that word's sky channel. |
| AoFace.FaceLightmapChannelsOnly | src/main/java/me/jellysquid/mods/sodium/client/model/light/smooth/AoFaceData.java:127-130 | Each corner lightmap of a face is a clean two-channel word in [0, 0xFF00FF]. |
| AoFace.FaceSampleChannelsOnly | src/main/java/me/jellysquid/mods/sodium/client/model/light/smooth/AoFaceData.java:127-130 | Every `lm` entry of a face sample is a clean two-channel word. |
| AoFace.UniformLightGivesUniformCorners | src/main/java/me/jellysquid/mods/sodium/client/model/light/smooth/AoFaceData.java:37-130 | Under one uniform, non-emissive light value every corner has that value: neither the diagonal rule nor centre substitution changes it. |
| AoFace.FaceAoInUnitRange | src/main/java/me/jellysquid/mods/sodium/client/model/light/smooth/AoFaceData.java:122-125 | With occlusion factors in [0, 1], every corner occlusion is in [0, 1]. |
| AoFace.OpaqueEdgesHideDiagonal | src/main/java/me/jellysquid/mods/sodium/client/model/light/smooth/AoFaceData.java:78-120 | When both edges bordering a corner are opaque, the diagonal neighbour is never read: caches differing only there give that corner the same light and occlusion. |
| AoFace.CentreSubstitution | src/main/java/me/jellysquid/mods/sodium/client/model/light/smooth/AoFaceData.java:37-44 | The centre is the origin word exactly when the sample is offset and the adjacent block is full and opaque; an unshifted sample's centre is always the origin. |
| AoFace.AoFaceData.constructor | src/main/java/me/jellysquid/mods/sodium/client/model/light/smooth/AoFaceData.java:1-206 | A new face sample has zeroed arrays and neither flag. |
| AoFace.NeighbourhoodWords | src/main/java/me/jellysquid/mods/sodium/client/model/light/smooth/AoFaceData.java:22-120 | The words `initLightData` reads are the face's own words: the adjacent word, the centre after substitution, edges e0 to e3 along `faces[0..3]`, and corners c0 to c3. Under the diagonal rule, c0 and c1 fall back to e0 and c2 and c3 to e1. |
| AoFace.AoFaceData.InitLightData | src/main/java/me/jellysquid/mods/sodium/client/model/light/smooth/AoFaceData.java:17-133 | Afterwards `lm[i]` and `ao[i]` are the face sample of (pos, direction, offset) at output slot i. Slot i reads the two edges bordering corner `[1, 0, 2, 3][i]` and that corner, which reuses its row edge when both bordering edges are opaque. The light-data flag is set. The channel arrays and the unpacked flag are unchanged. |
| AoFace.AoFaceData.UnpackLightData | src/main/java/me/jellysquid/mods/sodium/client/model/light/smooth/AoFaceData.java:135-147 | Afterwards `bl` and `sl` are the channels of `lm`, each in [0, 255], and the unpacked flag is set. `lm`, `ao` and the light-data flag are unchanged. |
| AoFace.AoFaceData.Reset | src/main/java/me/jellysquid/mods/sodium/client/model/light/smooth/AoFaceData.java:204-206 | Both flags are cleared; the arrays are untouched. |
| SmoothLight.SlotIndex | src/main/java/me/jellysquid/mods/sodium/client/model/light/smooth/SmoothLightPipeline.java:173-174 | A (direction, offset) pair selects one of the 12 slots. |
| SmoothLight.SlotIndexOnto | src/main/java/me/jellysquid/mods/sodium/client/model/light/smooth/SmoothLightPipeline.java:173-174 | Every slot is the slot of some (direction, offset) pair. |
| SmoothLight.SlotIndexInjective | src/main/java/me/jellysquid/mods/sodium/client/model/light/smooth/SmoothLightPipeline.java:174 | A slot determines its direction and offset, so distinct pairs never share a slot. |
| SmoothLight.RouteConditions | src/main/java/me/jellysquid/mods/sodium/client/model/light/smooth/SmoothLightPipeline.java:59-69 | Each of the four paths is taken if and only if its flag condition holds; the aligned paths include parallel quads of full-cube blocks. |
| SmoothLight.FullCubeFlagMattersOnlyForUnalignedParallel | src/main/java/me/jellysquid/mods/sodium/client/model/light/smooth/SmoothLightPipeline.java:59 | The block's full-cube flag changes the route exactly for parallel quads that are not aligned. |
| SmoothLight.Clamp | src/main/java/me/jellysquid/mods/sodium/client/model/light/smooth/SmoothLightPipeline.java:191-193 | The clamped value lies in [0, 1] and equals the input when the input already does. |
| SmoothLight.ClampIsNearest | src/main/java/me/jellysquid/mods/sodium/client/model/light/smooth/SmoothLightPipeline.java:191-193 | The clamped value is the point of [0, 1] nearest to the input. |
| SmoothLight.ClampIdempotent | src/main/java/me/jellysquid/mods/sodium/client/model/light/smooth/SmoothLightPipeline.java:191-193 | Clamping twice is clamping once. |
| SmoothLight.ClampMonotone | src/main/java/me/jellysquid/mods/sodium/client/model/light/smooth/SmoothLightPipeline.java:191-193 | Clamping preserves order. |
| SmoothLight.FloatToInt | src/main/java/me/jellysquid/mods/sodium/client/model/light/smooth/SmoothLightPipeline.java:196 | The `(int)` cast stays within distance 1 of an in-range input and keeps non-negative inputs non-negative. |
| SmoothLight.FloatToIntExactOnIntegers | src/main/java/me/jellysquid/mods/sodium/client/model/light/smooth/SmoothLightPipeline.java:196 | The cast is exact on integral values. |
| SmoothLight.LightMapCoordChannels | src/main/java/me/jellysquid/mods/sodium/client/model/light/smooth/SmoothLightPipeline.java:195-197 | The coordinate has sky light's low byte in bits 16-23, block light's low byte in bits 0-7, and no other bits. |
| SmoothLight.LightMapCoordOfIntegral | src/main/java/me/jellysquid/mods/sodium/client/model/light/smooth/SmoothLightPipeline.java:195-197 | Integral channel values in [0, 255] pass through the casts unchanged. |
| SmoothLight.LightMapCoordRepacks | src/main/java/me/jellysquid/mods/sodium/client/model/light/smooth/SmoothLightPipeline.java:195-197 | Repacking a word's two channels yields the word masked with `0xFF00FF`. |
| SmoothLight.LightMapCoordRoundTrip | src/main/java/me/jellysquid/mods/sodium/client/model/light/smooth/SmoothLightPipeline.java:195-197 | Unpacking a word and packing its integral channels round-trips to `w & 0xFF00FF`. |
| SmoothLight.OffsetSlotsDiffer | src/main/java/me/jellysquid/mods/sodium/client/model/light/smooth/SmoothLightPipeline.java:174 | A face's unshifted and offset samples live in different slots. |
| SmoothLight.ParallelSourceSlots | src/main/java/me/jellysquid/mods/sodium/client/model/light/smooth/SmoothLightPipeline.java:100-106 | A parallel vertex always reads the unshifted sample. It reads the offset sample exactly below depth 1, and then the two weights sum to 1. |
| SmoothLight.NonParallelSourceSlots | src/main/java/me/jellysquid/mods/sodium/client/model/light/smooth/SmoothLightPipeline.java:119-127 | A non-parallel vertex reads the offset sample exactly below depth 1 and the unshifted one exactly above depth 0. A blend has both weights strictly between 0 and 1, summing to 1. |
| SmoothLight.ParallelAgreesAboveZero | src/main/java/me/jellysquid/mods/sodium/client/model/light/smooth/SmoothLightPipeline.java:100-127 | The parallel and non-parallel depth rules agree exactly above depth 0. |
| SmoothLight.SourcesSlotsMember | src/main/java/me/jellysquid/mods/sodium/client/model/light/smooth/SmoothLightPipeline.java:81-128 | A slot is read by a list of vertex sources if and only if some vertex reads it. |
| SmoothLight.PlanReadsOnlyLightFace | src/main/java/me/jellysquid/mods/sodium/client/model/light/smooth/SmoothLightPipeline.java:74-128 | On every route a quad reads only its light face's two samples. Both aligned routes read exactly the offset sample. |
| SmoothLight.SmoothLightPipeline.constructor | src/main/java/me/jellysquid/mods/sodium/client/model/light/smooth/SmoothLightPipeline.java:39-50 | Twelve distinct fresh slots, none holding data, and the cached key `Long.MIN_VALUE`. |
| SmoothLight.SmoothLightPipeline.ResetSlots | src/main/java/me/jellysquid/mods/sodium/client/model/light/smooth/SmoothLightPipeline.java:184-186 | Every slot loses both flags and keeps its arrays. |
| SmoothLight.SmoothLightPipeline.UpdateCachedData | src/main/java/me/jellysquid/mods/sodium/client/model/light/smooth/SmoothLightPipeline.java:182-189 | A new key clears every slot; the same key leaves every slot unchanged. Either way the key is cached. |
| SmoothLight.SmoothLightPipeline.GetCachedFaceData | src/main/java/me/jellysquid/mods/sodium/client/model/light/smooth/SmoothLightPipeline.java:173-180 | Returns the (face, offset) slot with light data equal to the sample at the cached block. A slot already holding data is untouched. |
| SmoothLight.SmoothLightPipeline.GetUnpackedFaceData | src/main/java/me/jellysquid/mods/sodium/client/model/light/smooth/SmoothLightPipeline.java:132-154 | Returns the slot initialised and unpacked, its channels those of its corner words. A ready slot is untouched. |
| SmoothLight.SmoothLightPipeline.AlignedPartialFaceVertex | src/main/java/me/jellysquid/mods/sodium/client/model/light/smooth/SmoothLightPipeline.java:131-143 | The vertex blends the one chosen slot, which is then ready. A slot ready on entry stays ready and keeps its state. |
| SmoothLight.SmoothLightPipeline.InsetPartialFaceVertex | src/main/java/me/jellysquid/mods/sodium/client/model/light/smooth/SmoothLightPipeline.java:145-162 | The vertex insets the unshifted sample weighted n1d against the offset sample weighted n2d, and both are then ready. A slot ready on entry stays ready and keeps its state. |
| SmoothLight.SmoothLightPipeline.ApplyAlignedFullFace | src/main/java/me/jellysquid/mods/sodium/client/model/light/smooth/SmoothLightPipeline.java:74-77 | The whole face maps the corners of the offset sample, which then holds light data and keeps its unpacked flag. A slot ready on entry stays ready and keeps its state. |
| SmoothLight.SmoothLightPipeline.ApplyAlignedPartialFace | src/main/java/me/jellysquid/mods/sodium/client/model/light/smooth/SmoothLightPipeline.java:79-89 | The four vertex sources are the aligned-partial plan, and every slot they read is ready. A slot ready on entry stays ready and keeps its state. |
| SmoothLight.SmoothLightPipeline.ParallelVertex | src/main/java/me/jellysquid/mods/sodium/client/model/light/smooth/SmoothLightPipeline.java:94-106 | The vertex source is the parallel depth rule at the clamped vertex, and its slots are ready. A slot ready on entry stays ready and keeps its state. |
| SmoothLight.SmoothLightPipeline.NonParallelVertex | src/main/java/me/jellysquid/mods/sodium/client/model/light/smooth/SmoothLightPipeline.java:113-127 | The vertex source is the non-parallel depth rule at the clamped vertex, and its slots are ready. A slot ready on entry stays ready and keeps its state. |
| SmoothLight.SmoothLightPipeline.ApplyParallelFace | src/main/java/me/jellysquid/mods/sodium/client/model/light/smooth/SmoothLightPipeline.java:91-108 | The four vertex sources are the parallel plan of the quad, and every slot they read is ready. A slot ready on entry stays ready and keeps its state. |
| SmoothLight.SmoothLightPipeline.ApplyNonParallelFace | src/main/java/me/jellysquid/mods/sodium/client/model/light/smooth/SmoothLightPipeline.java:110-129 | The four vertex sources are the non-parallel plan of the quad, and every slot they read is ready. A slot ready on entry stays ready and keeps its state. |
| SmoothLight.SmoothLightPipeline.ReadySlotsServe | src/main/java/me/jellysquid/mods/sodium/client/model/light/smooth/SmoothLightPipeline.java:131-162 | While a block is cached, every ready slot a vertex reads holds its unpacked sample at that block. |
| SmoothLight.SmoothLightPipeline.PlanServes | src/main/java/me/jellysquid/mods/sodium/client/model/light/smooth/SmoothLightPipeline.java:74-162 | While a block is cached, every slot a ready plan reads holds its sample at that block, unpacked on the per-vertex paths. |
| SmoothLight.SmoothLightPipeline.Dispatch | src/main/java/me/jellysquid/mods/sodium/client/model/light/smooth/SmoothLightPipeline.java:56-69 | The plan is the one the quad's route calls for, with the route taken from the flags and the block's full-cube flag, and every slot it reads is ready. Only the light face's two slots can change, and a slot ready on entry keeps its state. |
| SmoothLight.SmoothLightPipeline.Calculate | src/main/java/me/jellysquid/mods/sodium/client/model/light/smooth/SmoothLightPipeline.java:53-72 | After re-keying on the block, the plan follows the quad's route. Every slot it reads holds the sample computed at this block, unpacked where a vertex blends it. On the same key, only the light face's two slots can change and a ready slot keeps its state. On a new key, every other slot is left without data. |
| BlockOcclusion.Decide | src/main/java/me/jellysquid/mods/sodium/client/render/chunk/compile/pipeline/BlockOcclusionCache.java:25-50 | A comparison compares the block's own culling face with the neighbour's face on the opposite side. |
| BlockOcclusion.DrawSideRules | src/main/java/me/jellysquid/mods/sodium/client/render/chunk/compile/pipeline/BlockOcclusionCache.java:24-53 | The rules in order: hidden side never drawn; see-through neighbour or empty face drawn; two full cubes against an opaque neighbour hidden. The comparison is consulted exactly when none of these applies. |
| BlockOcclusion.Encode | src/main/java/me/jellysquid/mods/sodium/client/render/chunk/compile/pipeline/BlockOcclusionCache.java:74-81 | The stored value is `ENTRY_TRUE` exactly for true and `ENTRY_FALSE` exactly for false. |
| BlockOcclusion.Find | src/main/java/me/jellysquid/mods/sodium/client/render/chunk/compile/pipeline/BlockOcclusionCache.java:60 | The position found is the first entry matching the key, and -1 exactly when none does. |
| BlockOcclusion.MoveToFirstOrder | src/main/java/me/jellysquid/mods/sodium/client/render/chunk/compile/pipeline/BlockOcclusionCache.java:60 | Moving entry i first shifts the earlier entries down by one and leaves the later ones in place. |
| BlockOcclusion.MoveToFirstKeepsEntries | src/main/java/me/jellysquid/mods/sodium/client/render/chunk/compile/pipeline/BlockOcclusionCache.java:60 | Moving an entry first is a permutation of the table. |
| BlockOcclusion.MoveToFirstKeepsDistinct | src/main/java/me/jellysquid/mods/sodium/client/render/chunk/compile/pipeline/BlockOcclusionCache.java:60 | Moving an entry first keeps the keys distinct. |
| BlockOcclusion.MoveToFirstKeepsEntryFacts | src/main/java/me/jellysquid/mods/sodium/client/render/chunk/compile/pipeline/BlockOcclusionCache.java:60 | Moving an entry first keeps every value correct and every key a stored copy. |
| BlockOcclusion.PutAfterMiss | src/main/java/me/jellysquid/mods/sodium/client/render/chunk/compile/pipeline/BlockOcclusionCache.java:74 | Putting an absent key places it first, ahead of the old table in its order, and keeps keys distinct. |
| BlockOcclusion.PrependKeepsInvariants | src/main/java/me/jellysquid/mods/sodium/client/render/chunk/compile/pipeline/BlockOcclusionCache.java:74-95 | A correct entry keyed by a new copy, put first, keeps every value correct and every key a copy. |
| BlockOcclusion.EvictDropsLeastRecent | src/main/java/me/jellysquid/mods/sodium/client/render/chunk/compile/pipeline/BlockOcclusionCache.java:70-72 | Eviction happens only at 512 entries or more, and then drops exactly the last entry. |
| BlockOcclusion.EvictKeepsInvariants | src/main/java/me/jellysquid/mods/sodium/client/render/chunk/compile/pipeline/BlockOcclusionCache.java:70-72 | Eviction keeps misses missing, keys distinct and keys copies. |
| BlockOcclusion.EvictKeepsStored | src/main/java/me/jellysquid/mods/sodium/client/render/chunk/compile/pipeline/BlockOcclusionCache.java:70-72 | Eviction keeps every remaining value correct. |
| BlockOcclusion.FreshCopyMisses | src/main/java/me/jellysquid/mods/sodium/client/render/chunk/compile/pipeline/BlockOcclusionCache.java:74-95 | A new copy of the scratch key misses wherever the scratch key misses. |
| BlockOcclusion.HitKeepsInvariant | src/main/java/me/jellysquid/mods/sodium/client/render/chunk/compile/pipeline/BlockOcclusionCache.java:60-62 | A hit needs keys compared by contents. Its stored value is then the answer for the two shapes, and moving it first keeps the invariant. |
| BlockOcclusion.MissKeepsInvariant | src/main/java/me/jellysquid/mods/sodium/client/render/chunk/compile/pipeline/BlockOcclusionCache.java:67-77 | A miss puts the correct answer first under a new copy, after the eviction, and keeps the invariant. |
| BlockOcclusion.LookupKeepsInvariant | src/main/java/me/jellysquid/mods/sodium/client/render/chunk/compile/pipeline/BlockOcclusionCache.java:55-77 | Every lookup leaves at most 512 entries, with distinct keys, each a stored copy holding the right answer. |
| BlockOcclusion.MissStoresFirst | src/main/java/me/jellysquid/mods/sodium/client/render/chunk/compile/pipeline/BlockOcclusionCache.java:67-77 | After a miss the table is the new entry, holding the encoded result, followed by the old entries minus the evicted one, in their old order. |
| BlockOcclusion.IdentityLookupNeverHits | src/main/java/me/jellysquid/mods/sodium/client/render/chunk/compile/pipeline/BlockOcclusionCache.java:55-96 | With identity keys the scratch key misses, and it misses again right after its pair was stored first. |
| BlockOcclusion.ContentLookupHitsAfterLookup | src/main/java/me/jellysquid/mods/sodium/client/render/chunk/compile/pipeline/BlockOcclusionCache.java:55-77 | With keys compared by their shapes, the pair just looked up is found at the front. |
| BlockOcclusion.HitOnlyReorders | src/main/java/me/jellysquid/mods/sodium/client/render/chunk/compile/pipeline/BlockOcclusionCache.java:60 | A hit permutes the table, putting the matching entry first. |
| BlockOcclusion.OcclusionCache.constructor | src/main/java/me/jellysquid/mods/sodium/client/render/chunk/compile/pipeline/BlockOcclusionCache.java:15-22 | An empty table and an empty scratch key. |
| BlockOcclusion.OcclusionCache.ShouldDrawSide | src/main/java/me/jellysquid/mods/sodium/client/render/chunk/compile/pipeline/BlockOcclusionCache.java:24-53 | The answer is the decision chain's. Early exits leave the table as it was; a comparison updates it as one lookup of the two faces, leaves the scratch key holding them, and makes one more key copy on a miss and none on a hit. |
| BlockOcclusion.OcclusionCache.Lookup | src/main/java/me/jellysquid/mods/sodium/client/render/chunk/compile/pipeline/BlockOcclusionCache.java:55-65 | The result is the shape comparison. The table changes as one lookup, and a new copy is numbered only on a miss. |
| BlockOcclusion.OcclusionCache.Calculate | src/main/java/me/jellysquid/mods/sodium/client/render/chunk/compile/pipeline/BlockOcclusionCache.java:67-77 | The result is the shape comparison. It is stored first under a new copy of the key, after evicting when full. |
| QuadIndexBuffer.MaxElementCount | src/main/java/me/jellysquid/mods/sodium/client/render/chunk/SharedQuadIndexBuffer.java:158-160 | Each index type allows a positive element count that fits in an `int`. |
| QuadIndexBuffer.MaxPrimitiveCountValues | src/main/java/me/jellysquid/mods/sodium/client/render/chunk/SharedQuadIndexBuffer.java:154-156 | The quad caps are 16384 for SHORT and 536870911 for INTEGER; four vertices per capped quad fit in an `int`. |
| QuadIndexBuffer.Stored | src/main/java/me/jellysquid/mods/sodium/client/render/chunk/SharedQuadIndexBuffer.java:104-129 | A stored index is read back below the type's modulus, and exactly when already in range. |
| QuadIndexBuffer.Pattern | src/main/java/me/jellysquid/mods/sodium/client/render/chunk/SharedQuadIndexBuffer.java:104-129 | Each of a quad's six elements names one of its four corners. |
| QuadIndexBuffer.QuadIndexOfQuad | src/main/java/me/jellysquid/mods/sodium/client/render/chunk/SharedQuadIndexBuffer.java:102-111 | Element r of quad k names vertex 4k plus corner r of the pattern. |
| QuadIndexBuffer.DivModSix | src/main/java/me/jellysquid/mods/sodium/client/render/chunk/SharedQuadIndexBuffer.java:102 | An element position 6k + r belongs to quad k at element r. |
| QuadIndexBuffer.QuadIsTwoTriangles | src/main/java/me/jellysquid/mods/sodium/client/render/chunk/SharedQuadIndexBuffer.java:104-129 | Positions 6k..6k+5 hold 4k, 4k+1, 4k+2, 4k+2, 4k+3, 4k: two triangles sharing a diagonal. |
| QuadIndexBuffer.QuadUsesItsFourVertices | src/main/java/me/jellysquid/mods/sodium/client/render/chunk/SharedQuadIndexBuffer.java:101-112 | Quad k's six indices use exactly its four vertices. |
| QuadIndexBuffer.IndicesBelowVertexCount | src/main/java/me/jellysquid/mods/sodium/client/render/chunk/SharedQuadIndexBuffer.java:101-112 | Every index of the first n quads names one of their 4n vertices. |
| QuadIndexBuffer.IndicesFitTheirType | src/main/java/me/jellysquid/mods/sodium/client/render/chunk/SharedQuadIndexBuffer.java:95-156 | Within the quad cap, SHORT indices are at most 65535 and no cast loses information, so both types hold the same sequence. |
| QuadIndexBuffer.CreateIndexBuffer | src/main/java/me/jellysquid/mods/sodium/client/render/chunk/SharedQuadIndexBuffer.java:97-133 | Positions below 6 * primitiveCount hold the quad pattern as stored by the type; every other position is untouched. |
| QuadIndexBuffer.WriteQuad | src/main/java/me/jellysquid/mods/sodium/client/render/chunk/SharedQuadIndexBuffer.java:102-111 | One iteration writes quad k's six positions with its pattern and touches nothing else. |
| QuadIndexBuffer.NextSizeGrows | src/main/java/me/jellysquid/mods/sodium/client/render/chunk/SharedQuadIndexBuffer.java:51-53 | The new size covers the request, exceeds the old size and stays within the cap. Unless the cap cuts it, it is at least double the old size and at least the request plus 16384. No step overflows. |
| QuadIndexBuffer.SharedQuadIndexBuffer.constructor | src/main/java/me/jellysquid/mods/sodium/client/render/chunk/SharedQuadIndexBuffer.java:22-37 | A new buffer holds no quads. |
| QuadIndexBuffer.SharedQuadIndexBuffer.EnsureCapacity | src/main/java/me/jellysquid/mods/sodium/client/render/chunk/SharedQuadIndexBuffer.java:39-49 | Rejects exactly the counts above the type's limit. A rejection or a request already covered changes nothing. Otherwise the buffer grows to the next size and then covers `elementCount / 6` quads. The size never shrinks and never passes the cap, and the storage always holds the pattern. |
| QuadIndexBuffer.SharedQuadIndexBuffer.Grow | src/main/java/me/jellysquid/mods/sodium/client/render/chunk/SharedQuadIndexBuffer.java:55-76 | New storage holds the pattern for exactly the new number of quads. |

## Left out

- Floating point. The model uses exact reals:
  - the occlusion average of `initLightData`;
  - clamping, depths and blend weights.

  Float rounding is not modelled.
- Float-to-int casts: NaN is not modelled.
- NaN vertex coordinates and depths are not modelled. In the code, a NaN depth fails every depth comparison and falls to the inset blend; `SmoothLight.Clamp` works on exact reals, so what clamp returns for a NaN coordinate is not modelled.
- The float blends are not modelled. A vertex's value is represented by its `VertexSource`, which names the slot or slots and the depth weights. Not modelled:
  - `weightedSum`;
  - `getBlendedSkyLight`, `getBlendedBlockLight` and `getBlendedShade`;
  - the values written to `QuadLightData`.
- `applySidedBrightness`: the multiplication by the world's face brightness is a float scaling by an external value.
- Not modelled: `AoNeighborInfo.mapCorners` and `calculateCornerWeights`. The aligned full-face plan names only the slot whose corners are mapped. Per-vertex sources carry the depth weights and no corner weights.
- The shared `weights` scratch array is not modelled, because its contents are floats produced by `AoNeighborInfo`.
- `AoFaceData` stores `bl` and `sl` as floats; the model keeps the integral channel values they hold.
- The completion flags are a set of two distinct flags rather than bits of an `int`. `MAX_LIGHT_COORDINATE` is a parameter, because it is defined outside this core.
- The model-quad flags are three booleans. Only the ALIGNED, PARALLEL and PARTIAL bits are read.
- `BlockPos.asLong` is a parameter required to be injective. Key collisions from coordinates outside the packed range are not modelled.
- Block coordinate overflow when stepping to a neighbour is not modelled.
- External collaborators are function parameters, with no further contract than their types:
  - `LightDataAccess` (`get` and the word unpackers);
  - `BlockState` (`isSideInvisible`, `isOpaque`, `getCullingFace`);
  - `VoxelShape.isEmpty`, `VoxelShapes.fullCube` and `matchesAnywhere`.
- The fastutil `Object2IntLinkedOpenHashMap` is modelled by its ordered-map behaviour only, as a sequence from most to least recently used. Hashing and capacity internals are not modelled.
- The GL side of the index buffer is not modelled, because it is driver I/O:
  - buffer creation;
  - `allocateStorage`;
  - mapping and unmapping;
  - `delete`;
  - `getBufferObject`, `getIndexFormat` and `getIndexType`;
  - the reusable direct byte buffers of the constructor.

  The mapped region is a fresh array with one element per index.
- Byte sizes are not modelled. `bufferSize` and `maxBufferSize` can overflow `int` for INTEGER buffers.
- QuadIndexBuffer.CreateIndexBuffer: element positions are unbounded integers. The `primitiveIndex * 6` overflow possible for INTEGER buffers above about 357 million quads is not modelled.
- The `IllegalArgumentException` of `ensureCapacity` is the `TooManyElements` outcome.
- DebugHudMixin is not part of this model: it is debug-overlay UI.

## Findings

| source | as written | input that shows it | evidently intended | confidence | as-written member | corrected member |
|---|---|---|---|---|---|---|
| src/main/java/me/jellysquid/mods/sodium/client/render/chunk/compile/pipeline/BlockOcclusionCache.java:83-96 | `ShapeComparison` defines no `equals` or `hashCode`, so the memo table compares keys by identity. The scratch key passed to `getAndMoveToFirst` is never the stored copy made by `copy()`. | Two `shouldDrawSide` calls with the same pair of non-empty, not-both-full-cube culling faces against an opaque neighbour. The second lookup misses, recomputes `matchesAnywhere` and stores a duplicate entry. Answers stay correct, but the table never serves a hit. | Keys equal when their `self` and `other` shapes are equal, so a repeated pair is answered from the table. | not executed | BlockOcclusion.IdentityLookupNeverHits | BlockOcclusion.ContentLookupHitsAfterLookup |
