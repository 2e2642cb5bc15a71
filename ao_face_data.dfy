/**
 * AoFaceData: the light and ambient occlusion of the four corners of one block face, computed
 * from the chunk's light data cache and kept until the pipeline resets it.
 */
module AoFace {
  import opened JavaInt
  import opened Directions
  import opened PackedLight

  /**
   * The light data cache (LightDataAccess), seen only through its contract: the packed
   * word of a block, of its neighbour along one direction, and of its neighbour along two
   * directions, and the fields unpacked from a word.
   */
  datatype LightAccess = LightAccess(
    get: Pos -> int,
    getSide: (Pos, Direction) -> int,
    getCorner: (Pos, Direction, Direction) -> int,
    lightmap: int -> i32,
    ao: int -> real,
    op: int -> bool,
    em: int -> bool,
    fo: int -> bool,
    fc: int -> bool)

  /** The four in-plane directions around a face, `AoNeighborInfo.get(direction).faces`. */
  datatype FaceDirs = FaceDirs(f0: Direction, f1: Direction, f2: Direction, f3: Direction)
  {
    function At(k: nat): Direction
      requires k < 4
    {
      if k == 0 then f0 else if k == 1 then f1 else if k == 2 then f2 else f3
    }
  }

  /** The two `AoCompletionFlags` bits, as distinct flag values. */
  datatype CompletionFlag = HasLight | HasUnpackedLight

  /** The block whose light a face samples: one step along the face when `offset` is set. */
  function AdjacentPos(pos: Pos, dir: Direction, offset: bool): Pos
  {
    if offset then Step(pos, dir) else pos
  }

  /** The word the face sample reads for the adjacent block itself. */
  function AdjacentWord(src: LightAccess, pos: Pos, dir: Direction, offset: bool): int
  {
    src.get(AdjacentPos(pos, dir, offset))
  }

  /**
   * Centre substitution: an offset sample that lands inside a full opaque block takes the
   * lightmap and emissive flag of the origin block instead.
   */
  function CentreWord(src: LightAccess, pos: Pos, dir: Direction, offset: bool): int
  {
    var adj := AdjacentWord(src, pos, dir, offset);
    if offset && src.fo(adj) then src.get(pos) else adj
  }

  /** Edge word `e_k`: the adjacent block's neighbour along `faces[k]`. */
  function EdgeWord(src: LightAccess, faces: FaceDirs, pos: Pos, dir: Direction, offset: bool, k: nat): int
    requires k < 4
  {
    src.getSide(AdjacentPos(pos, dir, offset), faces.At(k))
  }

  /** Corner `c` borders edge `e0` (corners 0 and 1) or `e1` (corners 2 and 3) ... */
  function RowEdge(c: nat): (k: nat)
    requires c < 4
    ensures k < 2
  {
    if c < 2 then 0 else 1
  }

  /** ... and edge `e2` (corners 0 and 2) or `e3` (corners 1 and 3). */
  function ColumnEdge(c: nat): (k: nat)
    requires c < 4
    ensures 2 <= k < 4
  {
    if c == 0 || c == 2 then 2 else 3
  }

  /**
   * The diagonal rule: a corner whose two bordering edges are both opaque reuses its row
   * edge; otherwise it reads the true diagonal neighbour.
   */
  function CornerWord(src: LightAccess, faces: FaceDirs, pos: Pos, dir: Direction, offset: bool, c: nat): int
    requires c < 4
  {
    var row := EdgeWord(src, faces, pos, dir, offset, RowEdge(c));
    var col := EdgeWord(src, faces, pos, dir, offset, ColumnEdge(c));
    if src.op(row) && src.op(col) then row
    else src.getCorner(AdjacentPos(pos, dir, offset), faces.At(RowEdge(c)), faces.At(ColumnEdge(c)))
  }

  /** Output slot `i` combines corner `[1, 0, 2, 3][i]` with the two edges bordering it. */
  function OutputCorner(i: nat): (c: nat)
    requires i < 4
    ensures c < 4
  {
    if i == 0 then 1 else if i == 1 then 0 else i
  }

  /** `lm[i]`: the corner brightness of (column edge, row edge, corner, centre). */
  function FaceLightmap(src: LightAccess, faces: FaceDirs, maxLight: i32, pos: Pos, dir: Direction,
                        offset: bool, i: nat): int
    requires i < 4
  {
    var c := OutputCorner(i);
    var col := EdgeWord(src, faces, pos, dir, offset, ColumnEdge(c));
    var row := EdgeWord(src, faces, pos, dir, offset, RowEdge(c));
    var corner := CornerWord(src, faces, pos, dir, offset, c);
    var centre := CentreWord(src, pos, dir, offset);
    CornerBrightness(src.lightmap(col), src.lightmap(row), src.lightmap(corner), src.lightmap(centre),
                     src.em(col), src.em(row), src.em(corner), src.em(centre), maxLight)
  }

  /** `ao[i]`: the mean occlusion of the same four samples, the centre always the adjacent block's. */
  function FaceAo(src: LightAccess, faces: FaceDirs, pos: Pos, dir: Direction, offset: bool, i: nat): real
    requires i < 4
  {
    var c := OutputCorner(i);
    var col := EdgeWord(src, faces, pos, dir, offset, ColumnEdge(c));
    var row := EdgeWord(src, faces, pos, dir, offset, RowEdge(c));
    var corner := CornerWord(src, faces, pos, dir, offset, c);
    (src.ao(col) + src.ao(row) + src.ao(corner) + src.ao(AdjacentWord(src, pos, dir, offset))) * 0.25
  }

  /**
   * `lm` and `ao` are the four corner values `initLightData` computes for the face of `pos`
   * along `dir`, sampled at the offset block when `offset` is set.
   */
  predicate IsFaceSample(lm: seq<int>, ao: seq<real>, src: LightAccess, faces: FaceDirs, maxLight: i32,
                         pos: Pos, dir: Direction, offset: bool)
  {
    |lm| == 4 && |ao| == 4 &&
    (forall i {:trigger FaceLightmap(src, faces, maxLight, pos, dir, offset, i)} :: 0 <= i < 4 ==>
       lm[i] == FaceLightmap(src, faces, maxLight, pos, dir, offset, i)) &&
    (forall i {:trigger FaceAo(src, faces, pos, dir, offset, i)} :: 0 <= i < 4 ==>
       ao[i] == FaceAo(src, faces, pos, dir, offset, i))
  }

  /** Four corners sampled one by one make up a face sample. */
  lemma FaceSampleOfCorners(lm0: int, lm1: int, lm2: int, lm3: int, ao0: real, ao1: real, ao2: real, ao3: real,
                            src: LightAccess, faces: FaceDirs, maxLight: i32, pos: Pos, dir: Direction, offset: bool)
    requires lm0 == FaceLightmap(src, faces, maxLight, pos, dir, offset, 0)
    requires lm1 == FaceLightmap(src, faces, maxLight, pos, dir, offset, 1)
    requires lm2 == FaceLightmap(src, faces, maxLight, pos, dir, offset, 2)
    requires lm3 == FaceLightmap(src, faces, maxLight, pos, dir, offset, 3)
    requires ao0 == FaceAo(src, faces, pos, dir, offset, 0) && ao1 == FaceAo(src, faces, pos, dir, offset, 1)
    requires ao2 == FaceAo(src, faces, pos, dir, offset, 2) && ao3 == FaceAo(src, faces, pos, dir, offset, 3)
    ensures IsFaceSample([lm0, lm1, lm2, lm3], [ao0, ao1, ao2, ao3], src, faces, maxLight, pos, dir, offset)
  {
    var lm, ao := [lm0, lm1, lm2, lm3], [ao0, ao1, ao2, ao3];
    forall i | 0 <= i < 4
      ensures lm[i] == FaceLightmap(src, faces, maxLight, pos, dir, offset, i)
      ensures ao[i] == FaceAo(src, faces, pos, dir, offset, i)
    {
      if i == 0 {
      } else if i == 1 {
      } else if i == 2 {
      } else {
      }
    }
  }

  /**
   * The words `initLightData` reads, under the names it gives them, are the adjacent, centre,
   * edge and corner words of the face.
   */
  lemma NeighbourhoodWords(src: LightAccess, faces: FaceDirs, pos: Pos, dir: Direction, offset: bool,
                           adj: Pos, adjWord: int, centreWord: int,
                           e0: int, e1: int, e2: int, e3: int, c0: int, c1: int, c2: int, c3: int)
    requires adj == (if offset then Step(pos, dir) else pos) && adjWord == src.get(adj)
    requires centreWord == (if offset && src.fo(adjWord) then src.get(pos) else adjWord)
    requires e0 == src.getSide(adj, faces.f0) && e1 == src.getSide(adj, faces.f1)
    requires e2 == src.getSide(adj, faces.f2) && e3 == src.getSide(adj, faces.f3)
    requires c0 == (if src.op(e2) && src.op(e0) then e0 else src.getCorner(adj, faces.f0, faces.f2))
    requires c1 == (if src.op(e3) && src.op(e0) then e0 else src.getCorner(adj, faces.f0, faces.f3))
    requires c2 == (if src.op(e2) && src.op(e1) then e1 else src.getCorner(adj, faces.f1, faces.f2))
    requires c3 == (if src.op(e3) && src.op(e1) then e1 else src.getCorner(adj, faces.f1, faces.f3))
    ensures adjWord == AdjacentWord(src, pos, dir, offset) && centreWord == CentreWord(src, pos, dir, offset)
    ensures e0 == EdgeWord(src, faces, pos, dir, offset, 0) && e1 == EdgeWord(src, faces, pos, dir, offset, 1)
    ensures e2 == EdgeWord(src, faces, pos, dir, offset, 2) && e3 == EdgeWord(src, faces, pos, dir, offset, 3)
    ensures c0 == CornerWord(src, faces, pos, dir, offset, 0) && c1 == CornerWord(src, faces, pos, dir, offset, 1)
    ensures c2 == CornerWord(src, faces, pos, dir, offset, 2) && c3 == CornerWord(src, faces, pos, dir, offset, 3)
  {
  }

  /** Output slot `i` in terms of the three words it reads around its corner. */
  lemma SlotOfWords(src: LightAccess, faces: FaceDirs, maxLight: i32, pos: Pos, dir: Direction, offset: bool,
                    i: nat, col: int, row: int, corner: int)
    requires i < 4
    requires col == EdgeWord(src, faces, pos, dir, offset, ColumnEdge(OutputCorner(i)))
    requires row == EdgeWord(src, faces, pos, dir, offset, RowEdge(OutputCorner(i)))
    requires corner == CornerWord(src, faces, pos, dir, offset, OutputCorner(i))
    ensures var centre := CentreWord(src, pos, dir, offset);
      FaceLightmap(src, faces, maxLight, pos, dir, offset, i)
        == CornerBrightness(src.lightmap(col), src.lightmap(row), src.lightmap(corner), src.lightmap(centre),
                            src.em(col), src.em(row), src.em(corner), src.em(centre), maxLight)
    ensures FaceAo(src, faces, pos, dir, offset, i)
         == (src.ao(col) + src.ao(row) + src.ao(corner) + src.ao(AdjacentWord(src, pos, dir, offset))) * 0.25
  {
  }

  /** The block-light channel of each corner word. */
  function BlockChannels(lm: seq<int>): (r: seq<int>)
    ensures |r| == |lm|
    ensures forall i :: 0 <= i < |lm| ==> r[i] == BlockLight(lm[i])
  {
    if lm == [] then [] else [BlockLight(lm[0])] + BlockChannels(lm[1..])
  }

  /** The sky-light channel of each corner word. */
  function SkyChannels(lm: seq<int>): (r: seq<int>)
    ensures |r| == |lm|
    ensures forall i :: 0 <= i < |lm| ==> r[i] == SkyLight(lm[i])
  {
    if lm == [] then [] else [SkyLight(lm[0])] + SkyChannels(lm[1..])
  }

  /** One corner word of a face is a clean two-channel lightmap. */
  lemma FaceLightmapChannelsOnly(src: LightAccess, faces: FaceDirs, maxLight: i32, pos: Pos,
                                 dir: Direction, offset: bool, i: nat)
    requires i < 4
    ensures ChannelsOnly(FaceLightmap(src, faces, maxLight, pos, dir, offset, i))
    ensures 0 <= FaceLightmap(src, faces, maxLight, pos, dir, offset, i) <= 0xFF00FF
  {
    var c := OutputCorner(i);
    var col := EdgeWord(src, faces, pos, dir, offset, ColumnEdge(c));
    var row := EdgeWord(src, faces, pos, dir, offset, RowEdge(c));
    var corner := CornerWord(src, faces, pos, dir, offset, c);
    var centre := CentreWord(src, pos, dir, offset);
    CornerBrightnessChannelsOnly(src.lightmap(col), src.lightmap(row), src.lightmap(corner), src.lightmap(centre),
                                 src.em(col), src.em(row), src.em(corner), src.em(centre), maxLight);
  }

  /** Every corner word of a face sample is a clean two-channel lightmap. */
  lemma FaceSampleChannelsOnly(lm: seq<int>, ao: seq<real>, src: LightAccess, faces: FaceDirs, maxLight: i32,
                               pos: Pos, dir: Direction, offset: bool)
    requires IsFaceSample(lm, ao, src, faces, maxLight, pos, dir, offset)
    ensures forall i :: 0 <= i < 4 ==> ChannelsOnly(lm[i]) && 0 <= lm[i] <= 0xFF00FF
  {
    forall i | 0 <= i < 4
      ensures ChannelsOnly(lm[i]) && 0 <= lm[i] <= 0xFF00FF
    {
      FaceLightmapChannelsOnly(src, faces, maxLight, pos, dir, offset, i);
    }
  }

  /**
   * A face surrounded by one uniform, non-emissive light value has that value at every
   * corner: neither the diagonal rule nor centre substitution can change it.
   */
  lemma UniformLightGivesUniformCorners(src: LightAccess, faces: FaceDirs, maxLight: i32, pos: Pos,
                                        dir: Direction, offset: bool, v: i32, i: nat)
    requires i < 4
    requires ChannelsOnly(v)
    requires forall w :: src.lightmap(w) == v && !src.em(w)
    ensures FaceLightmap(src, faces, maxLight, pos, dir, offset, i) == v
  {
    EqualInputsPassThrough(v, maxLight);
  }

  /** With occlusion factors in [0, 1] every corner occlusion value is in [0, 1]. */
  lemma FaceAoInUnitRange(src: LightAccess, faces: FaceDirs, pos: Pos, dir: Direction, offset: bool, i: nat)
    requires i < 4
    requires forall w :: 0.0 <= src.ao(w) <= 1.0
    ensures 0.0 <= FaceAo(src, faces, pos, dir, offset, i) <= 1.0
  {
  }

  /**
   * The diagonal rule: when both edges bordering a corner are opaque the diagonal neighbour
   * is never read, so two caches that differ only in diagonal neighbours give that corner
   * the same light and occlusion.
   */
  lemma OpaqueEdgesHideDiagonal(src: LightAccess, src2: LightAccess, faces: FaceDirs, maxLight: i32,
                                pos: Pos, dir: Direction, offset: bool, i: nat)
    requires i < 4
    requires src2 == src.(getCorner := src2.getCorner)
    requires var c := OutputCorner(i);
             src.op(EdgeWord(src, faces, pos, dir, offset, RowEdge(c))) &&
             src.op(EdgeWord(src, faces, pos, dir, offset, ColumnEdge(c)))
    ensures FaceLightmap(src2, faces, maxLight, pos, dir, offset, i) == FaceLightmap(src, faces, maxLight, pos, dir, offset, i)
    ensures FaceAo(src2, faces, pos, dir, offset, i) == FaceAo(src, faces, pos, dir, offset, i)
  {
    var c := OutputCorner(i);
    assert CornerWord(src2, faces, pos, dir, offset, c) == CornerWord(src, faces, pos, dir, offset, c);
  }

  /**
   * Centre substitution is one-sided: only an offset sample whose adjacent block is full and
   * opaque reads the origin; the centre occlusion always comes from the adjacent block.
   */
  lemma CentreSubstitution(src: LightAccess, pos: Pos, dir: Direction, offset: bool)
    ensures CentreWord(src, pos, dir, offset)
         == (if offset && src.fo(src.get(Step(pos, dir))) then src.get(pos)
             else src.get(AdjacentPos(pos, dir, offset)))
    ensures !offset ==> CentreWord(src, pos, dir, offset) == src.get(pos)
  {
  }

  class AoFaceData {
    /** `MAX_LIGHT_COORDINATE`, defined outside this core. */
    const maxLight: i32
    var lm: seq<int>
    var ao: seq<real>
    var bl: seq<int>
    var sl: seq<int>
    var flags: set<CompletionFlag>

    ghost predicate Valid()
      reads this
    {
      |lm| == 4 && |ao| == 4 && |bl| == 4 && |sl| == 4
    }

    /** `hasLightData()`. */
    predicate HasLightData()
      reads this
    {
      HasLight in flags
    }

    /** `hasUnpackedLightData()`. */
    predicate HasUnpackedLightData()
      reads this
    {
      HasUnpackedLight in flags
    }

    /** A fresh face holds zeroed arrays and no flags. */
    constructor (maxLight: i32)
      ensures Valid() && this.maxLight == maxLight
      ensures !HasLightData() && !HasUnpackedLightData()
      ensures lm == [0, 0, 0, 0] && ao == [0.0, 0.0, 0.0, 0.0] && bl == [0, 0, 0, 0] && sl == [0, 0, 0, 0]
    {
      this.maxLight := maxLight;
      lm, ao, bl, sl := [0, 0, 0, 0], [0.0, 0.0, 0.0, 0.0], [0, 0, 0, 0], [0, 0, 0, 0];
      flags := {};
    }

    /** `initLightData`: samples the neighbourhood of the face and marks the light data present. */
    method InitLightData(src: LightAccess, faces: FaceDirs, pos: Pos, dir: Direction, offset: bool)
      requires Valid()
      modifies this
      ensures Valid()
      ensures IsFaceSample(lm, ao, src, faces, maxLight, pos, dir, offset)
      ensures bl == old(bl) && sl == old(sl)
      ensures HasLightData() && HasUnpackedLightData() == old(HasUnpackedLightData())
    {
      var adj := if offset then Step(pos, dir) else pos;
      var adjWord := src.get(adj);

      // an offset sample inside a full opaque block takes the origin's light and emission
      var centreWord := if offset && src.fo(adjWord) then src.get(pos) else adjWord;
      var calm, caem := src.lightmap(centreWord), src.em(centreWord);
      var caao := src.ao(adjWord);

      var e0, e1 := src.getSide(adj, faces.f0), src.getSide(adj, faces.f1);
      var e2, e3 := src.getSide(adj, faces.f2), src.getSide(adj, faces.f3);

      // a corner whose two bordering edges are opaque reuses edge e0 or e1
      var c0 := if src.op(e2) && src.op(e0) then e0 else src.getCorner(adj, faces.f0, faces.f2);
      var c1 := if src.op(e3) && src.op(e0) then e0 else src.getCorner(adj, faces.f0, faces.f3);
      var c2 := if src.op(e2) && src.op(e1) then e1 else src.getCorner(adj, faces.f1, faces.f2);
      var c3 := if src.op(e3) && src.op(e1) then e1 else src.getCorner(adj, faces.f1, faces.f3);

      NeighbourhoodWords(src, faces, pos, dir, offset, adj, adjWord, centreWord, e0, e1, e2, e3, c0, c1, c2, c3);

      var ao0 := (src.ao(e3) + src.ao(e0) + src.ao(c1) + caao) * 0.25;
      var ao1 := (src.ao(e2) + src.ao(e0) + src.ao(c0) + caao) * 0.25;
      var ao2 := (src.ao(e2) + src.ao(e1) + src.ao(c2) + caao) * 0.25;
      var ao3 := (src.ao(e3) + src.ao(e1) + src.ao(c3) + caao) * 0.25;

      var lm0 := CornerBrightness(src.lightmap(e3), src.lightmap(e0), src.lightmap(c1), calm,
                                  src.em(e3), src.em(e0), src.em(c1), caem, maxLight);
      var lm1 := CornerBrightness(src.lightmap(e2), src.lightmap(e0), src.lightmap(c0), calm,
                                  src.em(e2), src.em(e0), src.em(c0), caem, maxLight);
      var lm2 := CornerBrightness(src.lightmap(e2), src.lightmap(e1), src.lightmap(c2), calm,
                                  src.em(e2), src.em(e1), src.em(c2), caem, maxLight);
      var lm3 := CornerBrightness(src.lightmap(e3), src.lightmap(e1), src.lightmap(c3), calm,
                                  src.em(e3), src.em(e1), src.em(c3), caem, maxLight);
      assert lm0 == FaceLightmap(src, faces, maxLight, pos, dir, offset, 0) &&
             ao0 == FaceAo(src, faces, pos, dir, offset, 0) by {
        SlotOfWords(src, faces, maxLight, pos, dir, offset, 0, e3, e0, c1);
      }
      assert lm1 == FaceLightmap(src, faces, maxLight, pos, dir, offset, 1) &&
             ao1 == FaceAo(src, faces, pos, dir, offset, 1) by {
        SlotOfWords(src, faces, maxLight, pos, dir, offset, 1, e2, e0, c0);
      }
      assert lm2 == FaceLightmap(src, faces, maxLight, pos, dir, offset, 2) &&
             ao2 == FaceAo(src, faces, pos, dir, offset, 2) by {
        SlotOfWords(src, faces, maxLight, pos, dir, offset, 2, e2, e1, c2);
      }
      assert lm3 == FaceLightmap(src, faces, maxLight, pos, dir, offset, 3) &&
             ao3 == FaceAo(src, faces, pos, dir, offset, 3) by {
        SlotOfWords(src, faces, maxLight, pos, dir, offset, 3, e3, e1, c3);
      }
      FaceSampleOfCorners(lm0, lm1, lm2, lm3, ao0, ao1, ao2, ao3, src, faces, maxLight, pos, dir, offset);
      lm, ao := [lm0, lm1, lm2, lm3], [ao0, ao1, ao2, ao3];
      flags := flags + {HasLight};
    }

    /** `unpackLightData`: splits each corner word into its block and sky channels. */
    method UnpackLightData()
      requires Valid()
      modifies this
      ensures Valid()
      ensures bl == BlockChannels(lm) && sl == SkyChannels(lm)
      ensures forall i :: 0 <= i < 4 ==> 0 <= bl[i] <= 255 && 0 <= sl[i] <= 255
      ensures lm == old(lm) && ao == old(ao)
      ensures HasUnpackedLightData() && HasLightData() == old(HasLightData())
    {
      bl := [BlockLight(lm[0]), BlockLight(lm[1]), BlockLight(lm[2]), BlockLight(lm[3])];
      sl := [SkyLight(lm[0]), SkyLight(lm[1]), SkyLight(lm[2]), SkyLight(lm[3])];
      flags := flags + {HasUnpackedLight};
    }

    /** `reset`: forgets both kinds of data without touching the arrays. */
    method Reset()
      requires Valid()
      modifies this
      ensures Valid()
      ensures !HasLightData() && !HasUnpackedLightData()
      ensures lm == old(lm) && ao == old(ao) && bl == old(bl) && sl == old(sl)
    {
      flags := {};
    }
  }
}
