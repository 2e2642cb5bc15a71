/**
 * SmoothLightPipeline: the per-block cache of twelve face samples, the dispatch of a quad to
 * one of four lighting paths, and the per-vertex choice between the inset and the offset
 * sample of the light face.
 */
module SmoothLight {
  import opened JavaInt
  import opened Directions
  import opened PackedLight
  import opened AoFace
  import opened Wrappers

  /** `Long.MIN_VALUE`, the initial cached position key. */
  const LONG_MIN: int := -0x8000_0000_0000_0000

  /** `cachedFaceData` holds `6 * 2` slots. */
  const SLOT_COUNT: nat := 12

  /** The slot of a (direction, offset) pair: offset samples first, then the unshifted ones. */
  function SlotIndex(dir: Direction, offset: bool): (k: nat)
    ensures k < SLOT_COUNT
  {
    if offset then Ordinal(dir) else Ordinal(dir) + 6
  }

  /** The direction a slot belongs to. */
  function SlotDirection(k: nat): Direction
    requires k < SLOT_COUNT
  {
    FromOrdinal(k % 6)
  }

  /** Whether a slot holds an offset sample. */
  function SlotOffset(k: nat): bool
    requires k < SLOT_COUNT
  {
    k < 6
  }

  /** Every slot is the slot of its own direction and offset ... */
  lemma SlotIndexOnto(k: nat)
    requires k < SLOT_COUNT
    ensures SlotIndex(SlotDirection(k), SlotOffset(k)) == k
  {
  }

  /** ... and each of the twelve (direction, offset) pairs has a slot of its own. */
  lemma {:induction false} SlotIndexInjective(d: Direction, offset: bool)
    ensures SlotDirection(SlotIndex(d, offset)) == d
    ensures SlotOffset(SlotIndex(d, offset)) == offset
  {
    var i := Ordinal(d);
    assert SlotIndex(d, offset) % 6 == i;
    assert Ordinal(FromOrdinal(i)) == i;
    match d
    case Down =>
    case Up =>
    case North =>
    case South =>
    case West =>
    case East =>
  }

  /** The three `ModelQuadFlags` bits the dispatch tests. */
  datatype QuadFlags = QuadFlags(aligned: bool, parallel: bool, partial: bool)

  /** The four lighting paths of `calculate`. */
  datatype Route = AlignedFull | AlignedPartial | Parallel | NonParallel

  /**
   * The dispatch of `calculate`. `fc` is the FC (full cube) flag of the block's own word: a
   * parallel quad of a full-cube block takes the aligned path like an aligned quad.
   */
  function RouteOf(q: QuadFlags, fc: bool): Route
  {
    if q.aligned || (q.parallel && fc) then
      if !q.partial then AlignedFull else AlignedPartial
    else if q.parallel then Parallel
    else NonParallel
  }

  /** Each path is taken exactly under its flag condition. */
  lemma RouteConditions(q: QuadFlags, fc: bool)
    ensures RouteOf(q, fc) == AlignedFull <==> (q.aligned || (q.parallel && fc)) && !q.partial
    ensures RouteOf(q, fc) == AlignedPartial <==> (q.aligned || (q.parallel && fc)) && q.partial
    ensures RouteOf(q, fc) == Parallel <==> !q.aligned && q.parallel && !fc
    ensures RouteOf(q, fc) == NonParallel <==> !q.aligned && !q.parallel
  {
  }

  /** The block's FC flag changes the route exactly for unaligned parallel quads. */
  lemma FullCubeFlagMattersOnlyForUnalignedParallel(q: QuadFlags)
    ensures RouteOf(q, true) != RouteOf(q, false) <==> q.parallel && !q.aligned
  {
  }

  function Distance(x: real, y: real): real
  {
    if x < y then y - x else x - y
  }

  /** `MathHelper.clamp(v, 0, 1)`. */
  function Clamp(v: real): (r: real)
    ensures 0.0 <= r <= 1.0
    ensures 0.0 <= v <= 1.0 ==> r == v
  {
    if v < 0.0 then 0.0 else if v > 1.0 then 1.0 else v
  }

  /** The clamped value is the point of [0, 1] nearest to `v`. */
  lemma ClampIsNearest(v: real, u: real)
    requires 0.0 <= u <= 1.0
    ensures Distance(Clamp(v), v) <= Distance(u, v)
  {
  }

  /** Clamping twice is clamping once. */
  lemma ClampIdempotent(v: real)
    ensures Clamp(Clamp(v)) == Clamp(v)
  {
  }

  /** Clamping preserves order. */
  lemma ClampMonotone(u: real, v: real)
    requires u <= v
    ensures Clamp(u) <= Clamp(v)
  {
  }

  /**
   * Java's `(int)` cast of a finite float: truncation toward zero, saturating at the ends of
   * the `int` range.
   */
  function FloatToInt(x: real): (r: i32)
    ensures INT_MIN as real <= x <= INT_MAX as real ==> Distance(x, r as real) < 1.0
    ensures x >= 0.0 ==> r >= 0
  {
    if x >= INT_MAX as real then INT_MAX
    else if x <= INT_MIN as real then INT_MIN
    else if x >= 0.0 then x.Floor
    else -((-x).Floor)
  }

  /** The cast is exact on integral values. */
  lemma FloatToIntExactOnIntegers(n: int)
    requires INT_MIN <= n <= INT_MAX
    ensures FloatToInt(n as real) == n
  {
  }

  /** `getLightMapCoord` on the cast values: sky light into bits 16-23, block light into bits 0-7. */
  function LightMapCoord(sl: int, bl: int): int
  {
    (sl % 256) * 65536 + bl % 256
  }

  /** `getLightMapCoord(sl, bl)` on the blended float values. */
  function LightMapCoordOf(sl: real, bl: real): int
  {
    LightMapCoord(FloatToInt(sl), FloatToInt(bl))
  }

  /** The coordinate carries the low byte of each value in its own channel and nothing else. */
  lemma {:induction false} LightMapCoordChannels(sl: int, bl: int)
    ensures ChannelsOnly(LightMapCoord(sl, bl))
    ensures 0 <= LightMapCoord(sl, bl) <= 0xFF00FF
    ensures SkyLight(LightMapCoord(sl, bl)) == sl % 256
    ensures BlockLight(LightMapCoord(sl, bl)) == bl % 256
  {
    var s, b := sl % 256, bl % 256;
    var w := s * 65536 + b;
    QuotientOf(w, 256, s * 256, b);
    QuotientOf(w, 65536, s, b);
    QuotientOf(s, 256, 0, s);
  }

  /** Integral channel values pass through the casts of `getLightMapCoord` unchanged. */
  lemma LightMapCoordOfIntegral(sl: int, bl: int)
    requires 0 <= sl <= 255 && 0 <= bl <= 255
    ensures LightMapCoordOf(sl as real, bl as real) == LightMapCoord(sl, bl)
  {
    FloatToIntExactOnIntegers(sl);
    FloatToIntExactOnIntegers(bl);
  }

  /** Packing the two channels of a word gives the word with everything outside `0xFF00FF` cleared. */
  lemma {:induction false} LightMapCoordRepacks(w: int)
    ensures LightMapCoord(SkyLight(w), BlockLight(w)) == ChannelMask(w)
  {
    assert SkyLight(w) % 256 == SkyLight(w);
    assert BlockLight(w) % 256 == BlockLight(w);
  }

  /**
   * Unpacking a lightmap word into its channels and packing the integral channel values again
   * gives the word with everything outside `0xFF00FF` cleared.
   */
  lemma {:induction false} LightMapCoordRoundTrip(w: int)
    ensures LightMapCoordOf(SkyLight(w) as real, BlockLight(w) as real) == ChannelMask(w)
  {
    LightMapCoordOfIntegral(SkyLight(w), BlockLight(w));
    LightMapCoordRepacks(w);
  }

  /** A quad vertex position. */
  datatype Vertex = Vertex(x: real, y: real, z: real)

  /** What the pipeline reads of a `ModelQuadView`: its flags and its four vertex positions. */
  datatype Quad = Quad(flags: QuadFlags, vertex: seq<Vertex>)

  /** `AoNeighborInfo` of one face: its in-plane directions and its depth function. */
  datatype NeighborInfo = NeighborInfo(faces: FaceDirs, depth: (real, real, real) -> real)

  /** `getDepth` of a vertex, on its clamped coordinates. */
  function VertexDepth(info: NeighborInfo, v: Vertex): real
  {
    info.depth(Clamp(v.x), Clamp(v.y), Clamp(v.z))
  }

  /** Which face sample or samples light one vertex, and with which weights. */
  datatype VertexSource =
    | Blend(slot: nat)
    | Inset(near: nat, nearWeight: real, far: nat, farWeight: real)

  /** The lighting plan of a quad: whole-face corner mapping, or one source per vertex. */
  datatype LightPlan = MappedCorners(slot: nat) | PerVertex(sources: seq<VertexSource>)

  function SourceSlots(s: VertexSource): set<nat>
  {
    match s
    case Blend(k) => {k}
    case Inset(n, _, f, _) => {n, f}
  }

  function SourcesSlots(ss: seq<VertexSource>): set<nat>
  {
    if ss == [] then {} else SourceSlots(ss[0]) + SourcesSlots(ss[1..])
  }

  /** The slots a plan reads. */
  function PlanSlots(p: LightPlan): set<nat>
  {
    match p
    case MappedCorners(k) => {k}
    case PerVertex(ss) => SourcesSlots(ss)
  }

  /** The depth rule of `applyParallelFace`. */
  function ParallelSource(dir: Direction, depth: real): VertexSource
  {
    if depth >= 1.0 then Blend(SlotIndex(dir, false))
    else Inset(SlotIndex(dir, false), depth, SlotIndex(dir, true), 1.0 - depth)
  }

  /** The depth rule of `applyNonParallelFace`. */
  function NonParallelSource(dir: Direction, depth: real): VertexSource
  {
    if depth <= 0.0 then Blend(SlotIndex(dir, true))
    else if depth >= 1.0 then Blend(SlotIndex(dir, false))
    else Inset(SlotIndex(dir, false), depth, SlotIndex(dir, true), 1.0 - depth)
  }

  /** The plan `calculate` produces for a quad on a given route. */
  function QuadPlan(route: Route, dir: Direction, info: NeighborInfo, quad: Quad): LightPlan
    requires |quad.vertex| == 4
  {
    match route
    case AlignedFull => MappedCorners(SlotIndex(dir, true))
    case AlignedPartial => PerVertex(seq(4, i => Blend(SlotIndex(dir, true))))
    case Parallel =>
      PerVertex(seq(4, i requires 0 <= i < 4 => ParallelSource(dir, VertexDepth(info, quad.vertex[i]))))
    case NonParallel =>
      PerVertex(seq(4, i requires 0 <= i < 4 => NonParallelSource(dir, VertexDepth(info, quad.vertex[i]))))
  }

  /** The unshifted and the offset sample of a face occupy different slots. */
  lemma OffsetSlotsDiffer(dir: Direction)
    ensures SlotIndex(dir, true) != SlotIndex(dir, false)
  {
  }

  /**
   * The parallel path always reads the unshifted sample, and the offset sample exactly when
   * the vertex lies less than one block deep; the two weights sum to one.
   */
  lemma ParallelSourceSlots(dir: Direction, depth: real)
    ensures SlotIndex(dir, false) in SourceSlots(ParallelSource(dir, depth))
    ensures SlotIndex(dir, true) in SourceSlots(ParallelSource(dir, depth)) <==> depth < 1.0
    ensures ParallelSource(dir, depth).Inset? ==>
              ParallelSource(dir, depth).nearWeight + ParallelSource(dir, depth).farWeight == 1.0
  {
  }

  /**
   * The non-parallel path reads the offset sample exactly below depth 1 and the unshifted
   * one exactly above depth 0; a blend of both has both weights strictly between 0 and 1.
   */
  lemma NonParallelSourceSlots(dir: Direction, depth: real)
    ensures SlotIndex(dir, true) in SourceSlots(NonParallelSource(dir, depth)) <==> depth < 1.0
    ensures SlotIndex(dir, false) in SourceSlots(NonParallelSource(dir, depth)) <==> depth > 0.0
    ensures NonParallelSource(dir, depth).Inset? ==>
              var s := NonParallelSource(dir, depth);
              0.0 < s.nearWeight < 1.0 && 0.0 < s.farWeight < 1.0 && s.nearWeight + s.farWeight == 1.0
  {
  }

  /** Above depth 0 the parallel and the non-parallel rules agree; they differ only at or below it. */
  lemma ParallelAgreesAboveZero(dir: Direction, depth: real)
    ensures depth > 0.0 ==> ParallelSource(dir, depth) == NonParallelSource(dir, depth)
    ensures depth <= 0.0 ==> ParallelSource(dir, depth) != NonParallelSource(dir, depth)
  {
  }

  lemma {:induction false} SourcesSlotsMember(ss: seq<VertexSource>, k: nat)
    ensures k in SourcesSlots(ss) <==> exists i :: 0 <= i < |ss| && k in SourceSlots(ss[i])
  {
    if ss != [] {
      SourcesSlotsMember(ss[1..], k);
      if k in SourcesSlots(ss[1..]) {
        var i :| 0 <= i < |ss[1..]| && k in SourceSlots(ss[1..][i]);
        assert ss[1..][i] == ss[i + 1];
      }
      if exists i :: 0 <= i < |ss| && k in SourceSlots(ss[i]) {
        var i :| 0 <= i < |ss| && k in SourceSlots(ss[i]);
        if i > 0 {
          assert ss[1..][i - 1] == ss[i];
        }
      }
    }
  }

  /** Whatever the route, a quad reads only the two samples of its own light face. */
  lemma PlanReadsOnlyLightFace(route: Route, dir: Direction, info: NeighborInfo, quad: Quad)
    requires |quad.vertex| == 4
    ensures PlanSlots(QuadPlan(route, dir, info, quad)) <= {SlotIndex(dir, true), SlotIndex(dir, false)}
    ensures route == AlignedFull || route == AlignedPartial ==>
              PlanSlots(QuadPlan(route, dir, info, quad)) == {SlotIndex(dir, true)}
  {
    var plan := QuadPlan(route, dir, info, quad);
    if plan.PerVertex? {
      var ss := plan.sources;
      forall k | k in SourcesSlots(ss)
        ensures k == SlotIndex(dir, true) || k == SlotIndex(dir, false)
        ensures route == AlignedPartial ==> k == SlotIndex(dir, true)
      {
        SourcesSlotsMember(ss, k);
        var i :| 0 <= i < |ss| && k in SourceSlots(ss[i]);
        if route == Parallel {
          ParallelSourceSlots(dir, VertexDepth(info, quad.vertex[i]));
        } else if route == NonParallel {
          NonParallelSourceSlots(dir, VertexDepth(info, quad.vertex[i]));
        }
      }
      if route == AlignedPartial {
        assert ss[0] == Blend(SlotIndex(dir, true));
        SourcesSlotsMember(ss, SlotIndex(dir, true));
      }
      assert PlanSlots(plan) == SourcesSlots(ss);
    }
  }

  class SmoothLightPipeline {
    /** The light data cache. */
    const lightCache: LightAccess
    /** `AoNeighborInfo.get`. */
    const neighbors: Direction -> NeighborInfo
    /** `BlockPos.asLong`. */
    const asLong: Pos -> int
    /** `MAX_LIGHT_COORDINATE`. */
    const maxLight: i32
    /** `cachedFaceData`: fixed at construction, each slot updated in place. */
    const slots: seq<AoFaceData>
    var cachedPos: int
    /** The block whose samples the slots hold, once a position has been cached. */
    ghost var cachedBlock: Option<Pos>

    ghost function Footprint(): set<object>
    {
      set k | 0 <= k < |slots| :: slots[k]
    }

    /** Slot `k` holds the sample `initLightData` computes at `p` for the slot's face and offset. */
    ghost predicate Holds(k: nat, p: Pos)
      requires k < |slots| == SLOT_COUNT
      reads slots[k]
    {
      var d, o := SlotDirection(k), SlotOffset(k);
      IsFaceSample(slots[k].lm, slots[k].ao, lightCache, neighbors(d).faces, maxLight, p, d, o)
    }

    /** Slot `k`'s channel arrays are the channels of its corner words. */
    ghost predicate Unpacked(k: nat)
      requires k < |slots|
      reads slots[k]
    {
      slots[k].bl == BlockChannels(slots[k].lm) && slots[k].sl == SkyChannels(slots[k].lm)
    }

    /** Slot `k` is well formed and, when it has light data, holds its sample at `block`. */
    ghost predicate SlotValid(k: nat, block: Option<Pos>)
      requires k < |slots| == SLOT_COUNT
      reads slots[k]
    {
      slots[k].Valid() && slots[k].maxLight == maxLight &&
      (slots[k].HasUnpackedLightData() ==> slots[k].HasLightData() && Unpacked(k)) &&
      (slots[k].HasLightData() ==> block.Some? && Holds(k, block.value))
    }

    ghost predicate Valid()
      reads this, Footprint()
    {
      |slots| == SLOT_COUNT &&
      (forall i, j :: 0 <= i < j < SLOT_COUNT ==> slots[i] != slots[j]) &&
      (forall p, q :: asLong(p) == asLong(q) ==> p == q) &&
      (cachedBlock.Some? ==> asLong(cachedBlock.value) == cachedPos) &&
      (forall k :: 0 <= k < SLOT_COUNT ==> SlotValid(k, cachedBlock))
    }

    /** A slot whose light data is present and unpacked. */
    ghost predicate Ready(k: nat)
      requires k < |slots|
      reads slots[k]
    {
      slots[k].HasLightData() && slots[k].HasUnpackedLightData()
    }

    /** Twelve fresh, empty slots and no cached position. */
    constructor (lightCache: LightAccess, neighbors: Direction -> NeighborInfo, asLong: Pos -> int, maxLight: i32)
      requires forall p, q :: asLong(p) == asLong(q) ==> p == q
      ensures Valid() && fresh(Footprint())
      ensures this.lightCache == lightCache && this.neighbors == neighbors
      ensures this.asLong == asLong && this.maxLight == maxLight
      ensures cachedPos == LONG_MIN && cachedBlock == None
      ensures forall k :: 0 <= k < SLOT_COUNT ==> !slots[k].HasLightData() && !slots[k].HasUnpackedLightData()
    {
      var s: seq<AoFaceData> := [];
      var i := 0;
      while i < SLOT_COUNT
        invariant 0 <= i <= SLOT_COUNT && |s| == i
        invariant forall k :: 0 <= k < i ==> fresh(s[k])
        invariant forall k, l :: 0 <= k < l < i ==> s[k] != s[l]
        invariant forall k :: 0 <= k < i ==>
                    s[k].Valid() && s[k].maxLight == maxLight &&
                    !s[k].HasLightData() && !s[k].HasUnpackedLightData()
      {
        var data := new AoFaceData(maxLight);
        s := s + [data];
        i := i + 1;
      }
      this.lightCache := lightCache;
      this.neighbors := neighbors;
      this.asLong := asLong;
      this.maxLight := maxLight;
      this.slots := s;
      cachedPos := LONG_MIN;
      cachedBlock := None;
    }

    /** The loop of `updateCachedData` that resets every slot on a new position key. */
    method ResetSlots()
      requires Valid()
      modifies Footprint()
      ensures Valid()
      ensures forall k :: 0 <= k < SLOT_COUNT ==> !slots[k].HasLightData() && !slots[k].HasUnpackedLightData()
      ensures forall k :: 0 <= k < SLOT_COUNT ==>
                slots[k].lm == old(slots[k].lm) && slots[k].ao == old(slots[k].ao) &&
                slots[k].bl == old(slots[k].bl) && slots[k].sl == old(slots[k].sl)
    {
      var i := 0;
      while i < SLOT_COUNT
        invariant 0 <= i <= SLOT_COUNT
        invariant forall k :: 0 <= k < i ==>
                    slots[k].Valid() && slots[k].maxLight == maxLight &&
                    !slots[k].HasLightData() && !slots[k].HasUnpackedLightData()
        invariant forall k :: i <= k < SLOT_COUNT ==> unchanged(slots[k]) && SlotValid(k, cachedBlock)
        invariant forall k :: 0 <= k < SLOT_COUNT ==>
                    slots[k].lm == old(slots[k].lm) && slots[k].ao == old(slots[k].ao) &&
                    slots[k].bl == old(slots[k].bl) && slots[k].sl == old(slots[k].sl)
      {
        slots[i].Reset();
        i := i + 1;
      }
    }

    /**
     * `updateCachedData`: a new position key resets every slot; the same key keeps them.
     * `pos` is the block whose key is passed.
     */
    method UpdateCachedData(key: int, ghost pos: Pos)
      requires Valid() && key == asLong(pos)
      modifies this`cachedPos, this`cachedBlock, Footprint()
      ensures Valid() && cachedPos == key && cachedBlock == Some(pos)
      ensures old(cachedPos) != key ==>
                forall k :: 0 <= k < SLOT_COUNT ==> !slots[k].HasLightData() && !slots[k].HasUnpackedLightData()
      ensures old(cachedPos) == key ==> forall k :: 0 <= k < SLOT_COUNT ==> unchanged(slots[k])
      ensures forall k :: 0 <= k < SLOT_COUNT ==>
                slots[k].lm == old(slots[k].lm) && slots[k].ao == old(slots[k].ao) &&
                slots[k].bl == old(slots[k].bl) && slots[k].sl == old(slots[k].sl)
    {
      if cachedPos != key {
        ResetSlots();
        cachedPos := key;
      } else {
        // the key of the cached block is `key`, so that block is `pos`
        assert cachedBlock.Some? ==> cachedBlock.value == pos;
      }
      ghost var before := cachedBlock;
      cachedBlock := Some(pos);
      forall k | 0 <= k < SLOT_COUNT
        ensures SlotValid(k, cachedBlock)
      {
        assert SlotValid(k, before);
      }
    }

    /**
     * `getCachedFaceData`: the slot of (face, offset), initialised from the light cache when
     * it holds no light data since the last reset and left untouched otherwise.
     */
    method GetCachedFaceData(pos: Pos, face: Direction, offset: bool) returns (data: AoFaceData)
      requires Valid() && cachedBlock == Some(pos)
      modifies slots[SlotIndex(face, offset)]
      ensures Valid() && data == slots[SlotIndex(face, offset)]
      ensures data.HasLightData() && Holds(SlotIndex(face, offset), pos)
      ensures data.HasUnpackedLightData() == old(data.HasUnpackedLightData())
      ensures old(data.HasLightData()) ==> unchanged(data)
    {
      SlotIndexInjective(face, offset);
      assert SlotValid(SlotIndex(face, offset), cachedBlock);
      data := slots[SlotIndex(face, offset)];
      if !data.HasLightData() {
        data.InitLightData(lightCache, neighbors(face).faces, pos, face, offset);
      }
    }

    /**
     * The step both vertex methods take for each slot they read: `getCachedFaceData`, then
     * `unpackLightData` unless the slot's channels are already unpacked.
     */
    method GetUnpackedFaceData(pos: Pos, face: Direction, offset: bool) returns (data: AoFaceData)
      requires Valid() && cachedBlock == Some(pos)
      modifies slots[SlotIndex(face, offset)]
      ensures Valid() && data == slots[SlotIndex(face, offset)]
      ensures Ready(SlotIndex(face, offset)) && Holds(SlotIndex(face, offset), pos)
      ensures Unpacked(SlotIndex(face, offset))
      ensures old(Ready(SlotIndex(face, offset))) ==> unchanged(data)
    {
      data := GetCachedFaceData(pos, face, offset);
      assert SlotValid(SlotIndex(face, offset), cachedBlock);
      if !data.HasUnpackedLightData() {
        data.UnpackLightData();
      }
    }

    /** `applyAlignedPartialFaceVertex`: one vertex lit by one slot, unpacked on first use. */
    method AlignedPartialFaceVertex(pos: Pos, dir: Direction, offset: bool) returns (src: VertexSource)
      requires Valid() && cachedBlock == Some(pos)
      modifies slots[SlotIndex(dir, offset)]
      ensures Valid() && src == Blend(SlotIndex(dir, offset))
      ensures Ready(SlotIndex(dir, offset))
      ensures forall k :: 0 <= k < SLOT_COUNT && old(Ready(k)) ==> Ready(k)
      ensures forall k :: 0 <= k < SLOT_COUNT && old(Ready(k)) ==> unchanged(slots[k])
    {
      var data := GetUnpackedFaceData(pos, dir, offset);
      src := Blend(SlotIndex(dir, offset));
    }

    /**
     * `applyInsetPartialFaceVertex`: one vertex lit by the unshifted sample weighted `n1d`
     * and the offset sample weighted `n2d`, each unpacked on first use.
     */
    method InsetPartialFaceVertex(pos: Pos, dir: Direction, n1d: real, n2d: real) returns (src: VertexSource)
      requires Valid() && cachedBlock == Some(pos)
      modifies slots[SlotIndex(dir, false)], slots[SlotIndex(dir, true)]
      ensures Valid() && src == Inset(SlotIndex(dir, false), n1d, SlotIndex(dir, true), n2d)
      ensures Ready(SlotIndex(dir, false)) && Ready(SlotIndex(dir, true))
      ensures forall k :: 0 <= k < SLOT_COUNT && old(Ready(k)) ==> Ready(k)
      ensures forall k :: 0 <= k < SLOT_COUNT && old(Ready(k)) ==> unchanged(slots[k])
    {
      var n1 := GetUnpackedFaceData(pos, dir, false);
      var n2 := GetUnpackedFaceData(pos, dir, true);
      src := Inset(SlotIndex(dir, false), n1d, SlotIndex(dir, true), n2d);
    }

    /** Every slot the vertex source reads is ready. */
    ghost predicate SourceReady(src: VertexSource)
      requires |slots| == SLOT_COUNT
      reads Footprint()
    {
      match src
      case Blend(k) => k < SLOT_COUNT && Ready(k)
      case Inset(n, _, f, _) => n < SLOT_COUNT && f < SLOT_COUNT && Ready(n) && Ready(f)
    }

    /** Every slot some vertex source reads is ready. */
    ghost predicate SourcesReady(ss: seq<VertexSource>)
      requires |slots| == SLOT_COUNT
      reads Footprint()
    {
      forall i :: 0 <= i < |ss| ==> SourceReady(ss[i])
    }

    /** `applyAlignedFullFace`: the whole face mapped from the offset sample's corners. */
    method ApplyAlignedFullFace(pos: Pos, dir: Direction) returns (plan: LightPlan)
      requires Valid() && cachedBlock == Some(pos)
      modifies slots[SlotIndex(dir, true)]
      ensures Valid() && plan == MappedCorners(SlotIndex(dir, true))
      ensures slots[SlotIndex(dir, true)].HasLightData()
      ensures slots[SlotIndex(dir, true)].HasUnpackedLightData() == old(slots[SlotIndex(dir, true)].HasUnpackedLightData())
      ensures forall k :: 0 <= k < SLOT_COUNT && old(Ready(k)) ==> Ready(k)
      ensures forall k :: 0 <= k < SLOT_COUNT && old(Ready(k)) ==> unchanged(slots[k])
    {
      var data := GetCachedFaceData(pos, dir, true);
      plan := MappedCorners(SlotIndex(dir, true));
    }

    /** `applyAlignedPartialFace`: every vertex blends the offset sample's corners. */
    method ApplyAlignedPartialFace(quad: Quad, pos: Pos, dir: Direction) returns (sources: seq<VertexSource>)
      requires Valid() && cachedBlock == Some(pos) && |quad.vertex| == 4
      modifies slots[SlotIndex(dir, true)]
      ensures Valid() && PerVertex(sources) == QuadPlan(AlignedPartial, dir, neighbors(dir), quad)
      ensures SourcesReady(sources)
      ensures forall k :: 0 <= k < SLOT_COUNT && old(Ready(k)) ==> Ready(k)
      ensures forall k :: 0 <= k < SLOT_COUNT && old(Ready(k)) ==> unchanged(slots[k])
    {
      sources := [];
      var i := 0;
      while i < 4
        invariant 0 <= i <= 4 && |sources| == i
        invariant Valid() && cachedBlock == Some(pos)
        invariant forall j :: 0 <= j < i ==> sources[j] == Blend(SlotIndex(dir, true))
        invariant SourcesReady(sources)
        invariant forall k :: 0 <= k < SLOT_COUNT && old(Ready(k)) ==> Ready(k)
        invariant forall k :: 0 <= k < SLOT_COUNT && old(Ready(k)) ==> unchanged(slots[k])
      {
        var src := AlignedPartialFaceVertex(pos, dir, true);
        sources := sources + [src];
        i := i + 1;
      }
    }

    /** One vertex of `applyParallelFace`: a vertex at full depth blends the unshifted sample. */
    method ParallelVertex(info: NeighborInfo, v: Vertex, pos: Pos, dir: Direction) returns (src: VertexSource)
      requires Valid() && cachedBlock == Some(pos)
      modifies slots[SlotIndex(dir, false)], slots[SlotIndex(dir, true)]
      ensures Valid() && src == ParallelSource(dir, VertexDepth(info, v))
      ensures SourceReady(src)
      ensures forall k :: 0 <= k < SLOT_COUNT && old(Ready(k)) ==> Ready(k)
      ensures forall k :: 0 <= k < SLOT_COUNT && old(Ready(k)) ==> unchanged(slots[k])
    {
      var depth := info.depth(Clamp(v.x), Clamp(v.y), Clamp(v.z));
      if depth >= 1.0 {
        src := AlignedPartialFaceVertex(pos, dir, false);
      } else {
        src := InsetPartialFaceVertex(pos, dir, depth, 1.0 - depth);
      }
    }

    /**
     * One vertex of `applyNonParallelFace`: no depth blends the offset sample, full depth the
     * unshifted one, anything between insets the two.
     */
    method NonParallelVertex(info: NeighborInfo, v: Vertex, pos: Pos, dir: Direction) returns (src: VertexSource)
      requires Valid() && cachedBlock == Some(pos)
      modifies slots[SlotIndex(dir, false)], slots[SlotIndex(dir, true)]
      ensures Valid() && src == NonParallelSource(dir, VertexDepth(info, v))
      ensures SourceReady(src)
      ensures forall k :: 0 <= k < SLOT_COUNT && old(Ready(k)) ==> Ready(k)
      ensures forall k :: 0 <= k < SLOT_COUNT && old(Ready(k)) ==> unchanged(slots[k])
    {
      var depth := info.depth(Clamp(v.x), Clamp(v.y), Clamp(v.z));
      if depth <= 0.0 {
        src := AlignedPartialFaceVertex(pos, dir, true);
      } else if depth >= 1.0 {
        src := AlignedPartialFaceVertex(pos, dir, false);
      } else {
        src := InsetPartialFaceVertex(pos, dir, depth, 1.0 - depth);
      }
    }

    /** `applyParallelFace`: the depth of each clamped vertex picks its source. */
    method ApplyParallelFace(info: NeighborInfo, quad: Quad, pos: Pos, dir: Direction)
      returns (sources: seq<VertexSource>)
      requires Valid() && cachedBlock == Some(pos) && |quad.vertex| == 4
      modifies slots[SlotIndex(dir, false)], slots[SlotIndex(dir, true)]
      ensures Valid() && PerVertex(sources) == QuadPlan(Parallel, dir, info, quad)
      ensures SourcesReady(sources)
      ensures forall k :: 0 <= k < SLOT_COUNT && old(Ready(k)) ==> Ready(k)
      ensures forall k :: 0 <= k < SLOT_COUNT && old(Ready(k)) ==> unchanged(slots[k])
    {
      sources := [];
      var i := 0;
      while i < 4
        invariant 0 <= i <= 4 && |sources| == i
        invariant Valid() && cachedBlock == Some(pos)
        invariant forall j :: 0 <= j < i ==> sources[j] == ParallelSource(dir, VertexDepth(info, quad.vertex[j]))
        invariant SourcesReady(sources)
        invariant forall k :: 0 <= k < SLOT_COUNT && old(Ready(k)) ==> Ready(k)
        invariant forall k :: 0 <= k < SLOT_COUNT && old(Ready(k)) ==> unchanged(slots[k])
      {
        var src := ParallelVertex(info, quad.vertex[i], pos, dir);
        sources := sources + [src];
        i := i + 1;
      }
    }

    /** `applyNonParallelFace`: the depth of each clamped vertex picks its source. */
    method ApplyNonParallelFace(info: NeighborInfo, quad: Quad, pos: Pos, dir: Direction)
      returns (sources: seq<VertexSource>)
      requires Valid() && cachedBlock == Some(pos) && |quad.vertex| == 4
      modifies slots[SlotIndex(dir, false)], slots[SlotIndex(dir, true)]
      ensures Valid() && PerVertex(sources) == QuadPlan(NonParallel, dir, info, quad)
      ensures SourcesReady(sources)
      ensures forall k :: 0 <= k < SLOT_COUNT && old(Ready(k)) ==> Ready(k)
      ensures forall k :: 0 <= k < SLOT_COUNT && old(Ready(k)) ==> unchanged(slots[k])
    {
      sources := [];
      var i := 0;
      while i < 4
        invariant 0 <= i <= 4 && |sources| == i
        invariant Valid() && cachedBlock == Some(pos)
        invariant forall j :: 0 <= j < i ==> sources[j] == NonParallelSource(dir, VertexDepth(info, quad.vertex[j]))
        invariant SourcesReady(sources)
        invariant forall k :: 0 <= k < SLOT_COUNT && old(Ready(k)) ==> Ready(k)
        invariant forall k :: 0 <= k < SLOT_COUNT && old(Ready(k)) ==> unchanged(slots[k])
      {
        var src := NonParallelVertex(info, quad.vertex[i], pos, dir);
        sources := sources + [src];
        i := i + 1;
      }
    }

    /** A slot that is ready while `pos` is cached holds its unpacked sample at `pos`. */
    lemma ReadySlotsServe(ss: seq<VertexSource>, pos: Pos)
      requires Valid() && cachedBlock == Some(pos) && SourcesReady(ss)
      ensures forall k :: k in SourcesSlots(ss) ==>
                k < SLOT_COUNT && Ready(k) && slots[k].HasLightData() && Holds(k, pos) && Unpacked(k)
    {
      forall k | k in SourcesSlots(ss)
        ensures k < SLOT_COUNT && Ready(k) && slots[k].HasLightData() && Holds(k, pos) && Unpacked(k)
      {
        SourcesSlotsMember(ss, k);
        var i :| 0 <= i < |ss| && k in SourceSlots(ss[i]);
        assert SourceReady(ss[i]);
        assert k < SLOT_COUNT && Ready(k);
        assert SlotValid(k, cachedBlock);
      }
    }

    /** Every slot the plan reads is initialised, and unpacked when a vertex blends it. */
    ghost predicate PlanReady(plan: LightPlan)
      requires |slots| == SLOT_COUNT
      reads Footprint()
    {
      match plan
      case MappedCorners(k) => k < SLOT_COUNT && slots[k].HasLightData()
      case PerVertex(ss) => SourcesReady(ss)
    }

    /** While `pos` is cached, every slot a ready plan reads holds its sample at `pos`. */
    lemma PlanServes(plan: LightPlan, pos: Pos)
      requires Valid() && cachedBlock == Some(pos) && PlanReady(plan)
      ensures forall k :: k in PlanSlots(plan) ==> k < SLOT_COUNT && slots[k].HasLightData() && Holds(k, pos)
      ensures plan.PerVertex? ==> forall k :: k in PlanSlots(plan) ==> k < SLOT_COUNT && Ready(k) && Unpacked(k)
    {
      match plan
      case MappedCorners(k) =>
        assert SlotValid(k, cachedBlock);
      case PerVertex(ss) =>
        ReadySlotsServe(ss, pos);
    }

    /** The dispatch of `calculate`: the route of the quad picks how its plan is built. */
    method Dispatch(quad: Quad, pos: Pos, lightFace: Direction) returns (plan: LightPlan)
      requires Valid() && cachedBlock == Some(pos) && |quad.vertex| == 4
      modifies Footprint()
      ensures Valid() && cachedBlock == Some(pos)
      ensures plan == QuadPlan(RouteOf(quad.flags, lightCache.fc(lightCache.get(pos))), lightFace,
                               neighbors(lightFace), quad)
      ensures PlanReady(plan)
      ensures forall k :: 0 <= k < SLOT_COUNT && k != SlotIndex(lightFace, false) && k != SlotIndex(lightFace, true) ==>
                unchanged(slots[k])
      ensures forall k :: 0 <= k < SLOT_COUNT && old(Ready(k)) ==> unchanged(slots[k])
    {
      var info := neighbors(lightFace);
      var q := quad.flags;
      if q.aligned || (q.parallel && lightCache.fc(lightCache.get(pos))) {
        if !q.partial {
          plan := ApplyAlignedFullFace(pos, lightFace);
        } else {
          var sources := ApplyAlignedPartialFace(quad, pos, lightFace);
          plan := PerVertex(sources);
        }
      } else if q.parallel {
        var sources := ApplyParallelFace(info, quad, pos, lightFace);
        plan := PerVertex(sources);
      } else {
        var sources := ApplyNonParallelFace(info, quad, pos, lightFace);
        plan := PerVertex(sources);
      }
    }

    /**
     * `calculate`: re-keys the cache on `pos`, routes the quad and returns the plan of which
     * samples light which vertex. Every slot the plan reads then holds the sample computed at
     * `pos` for its face and offset, unpacked when a vertex blends it.
     */
    method Calculate(quad: Quad, pos: Pos, lightFace: Direction) returns (plan: LightPlan)
      requires Valid() && |quad.vertex| == 4
      modifies this`cachedPos, this`cachedBlock, Footprint()
      ensures Valid() && cachedPos == asLong(pos) && cachedBlock == Some(pos)
      ensures plan == QuadPlan(RouteOf(quad.flags, lightCache.fc(lightCache.get(pos))), lightFace,
                               neighbors(lightFace), quad)
      ensures forall k :: k in PlanSlots(plan) ==> k < SLOT_COUNT && slots[k].HasLightData() && Holds(k, pos)
      ensures plan.PerVertex? ==> forall k :: k in PlanSlots(plan) ==> k < SLOT_COUNT && Ready(k) && Unpacked(k)
      ensures old(cachedPos) == asLong(pos) ==>
                forall k :: 0 <= k < SLOT_COUNT && k != SlotIndex(lightFace, false) && k != SlotIndex(lightFace, true) ==>
                  unchanged(slots[k])
      ensures old(cachedPos) == asLong(pos) ==>
                forall k :: 0 <= k < SLOT_COUNT && old(Ready(k)) ==> unchanged(slots[k])
      ensures old(cachedPos) != asLong(pos) ==>
                forall k :: 0 <= k < SLOT_COUNT && k != SlotIndex(lightFace, false) && k != SlotIndex(lightFace, true) ==>
                  !slots[k].HasLightData() && !slots[k].HasUnpackedLightData()
    {
      UpdateCachedData(asLong(pos), pos);
      plan := Dispatch(quad, pos, lightFace);
      PlanServes(plan, pos);
    }
  }
}
