/**
 * SharedQuadIndexBuffer: one index buffer shared by every draw of quads, holding six indices
 * per quad (two triangles over the quad's four vertices), grown on demand and never shrunk.
 *
 * The GL buffer object is modelled by the array its mapped storage exposes; allocating
 * storage is allocating a new array of the right number of elements.
 */
module QuadIndexBuffer {
  import opened JavaInt

  const ELEMENTS_PER_PRIMITIVE: nat := 6
  const VERTICES_PER_PRIMITIVE: nat := 4

  /** Width of one stored index. */
  datatype IndexType = Short | Integer

  /** Largest element count a buffer of this index type may be asked to hold. */
  function MaxElementCount(t: IndexType): (n: int)
    ensures 0 < n <= INT_MAX
  {
    match t
    case Short => 64 * 1024
    case Integer => INT_MAX
  }

  /** The cap on the number of quads a buffer is grown to. */
  function MaxPrimitiveCount(t: IndexType): int
  {
    MaxElementCount(t) / 4
  }

  lemma MaxPrimitiveCountValues()
    ensures MaxPrimitiveCount(Short) == 16384
    ensures MaxPrimitiveCount(Integer) == 536870911
    ensures MaxPrimitiveCount(Integer) * VERTICES_PER_PRIMITIVE <= INT_MAX
  {
  }

  /** Number of distinct values an index of this type holds, read unsigned. */
  function Modulus(t: IndexType): nat
  {
    match t
    case Short => 0x1_0000
    case Integer => 0x1_0000_0000
  }

  /** The unsigned value read back from an element written with vertex number `v`: the cast keeps the low bits. */
  function Stored(t: IndexType, v: int): (r: nat)
    ensures r < Modulus(t)
    ensures 0 <= v < Modulus(t) ==> r == v
  {
    v % Modulus(t)
  }

  /** Corner of the quad used by element `r` of its six: triangles (0, 1, 2) and (2, 3, 0). */
  function Pattern(r: nat): (c: nat)
    requires r < ELEMENTS_PER_PRIMITIVE
    ensures c < VERTICES_PER_PRIMITIVE
  {
    if r == 0 then 0
    else if r == 1 then 1
    else if r == 2 || r == 3 then 2
    else if r == 4 then 3
    else 0
  }

  /** The vertex number held at element position `j` of a quad index buffer. */
  function QuadIndex(j: nat): nat
  {
    VERTICES_PER_PRIMITIVE * (j / ELEMENTS_PER_PRIMITIVE) + Pattern(j % ELEMENTS_PER_PRIMITIVE)
  }

  /** Element `r` of quad `k` names corner `Pattern(r)` of that quad's four vertices. */
  lemma QuadIndexOfQuad(k: nat, r: nat)
    requires r < ELEMENTS_PER_PRIMITIVE
    ensures QuadIndex(ELEMENTS_PER_PRIMITIVE * k + r) == VERTICES_PER_PRIMITIVE * k + Pattern(r)
  {
    var j := 6 * k + r;
    assert j / 6 == k && j % 6 == r by {
      DivModSix(j, k, r);
    }
  }

  lemma DivModSix(j: int, k: int, r: int)
    requires 0 <= r < 6 && j == 6 * k + r
    ensures j / 6 == k && j % 6 == r
  {
  }

  /**
   * The six indices of quad `k` are two triangles over that quad's first three and last
   * three corners, sharing the diagonal from its first to its third vertex.
   */
  lemma QuadIsTwoTriangles(k: nat)
    ensures var b := 6 * k;
      QuadIndex(b) == 4 * k && QuadIndex(b + 1) == 4 * k + 1 && QuadIndex(b + 2) == 4 * k + 2 &&
      QuadIndex(b + 3) == 4 * k + 2 && QuadIndex(b + 4) == 4 * k + 3 && QuadIndex(b + 5) == 4 * k
  {
    QuadIndexOfQuad(k, 0);
    QuadIndexOfQuad(k, 1);
    QuadIndexOfQuad(k, 2);
    QuadIndexOfQuad(k, 3);
    QuadIndexOfQuad(k, 4);
    QuadIndexOfQuad(k, 5);
  }

  /** The six indices of quad `k` use each of that quad's four vertices and nothing else. */
  lemma QuadUsesItsFourVertices(k: nat)
    ensures (set j | 6 * k <= j < 6 * k + 6 :: QuadIndex(j)) == {4 * k, 4 * k + 1, 4 * k + 2, 4 * k + 3}
  {
    QuadIsTwoTriangles(k);
    var s := set j | 6 * k <= j < 6 * k + 6 :: QuadIndex(j);
    forall j | 6 * k <= j < 6 * k + 6 ensures QuadIndex(j) in {4 * k, 4 * k + 1, 4 * k + 2, 4 * k + 3} {
      QuadIndexOfQuad(k, j - 6 * k);
    }
    assert QuadIndex(6 * k) in s && QuadIndex(6 * k + 1) in s;
    assert QuadIndex(6 * k + 2) in s && QuadIndex(6 * k + 4) in s;
  }

  /** Every index among the first `count` quads names one of their `4 * count` vertices. */
  lemma IndicesBelowVertexCount(count: nat, j: nat)
    requires j < ELEMENTS_PER_PRIMITIVE * count
    ensures QuadIndex(j) < VERTICES_PER_PRIMITIVE * count
  {
    var k, r := j / 6, j % 6;
    assert k < count;
    QuadIndexOfQuad(k, r);
  }

  /**
   * Within the quads a buffer can be grown to, no cast loses information: an index of
   * either width reads back as its vertex number, so both widths hold the same sequence.
   */
  lemma IndicesFitTheirType(t: IndexType, count: nat, j: nat)
    requires count <= MaxPrimitiveCount(t) && j < ELEMENTS_PER_PRIMITIVE * count
    ensures QuadIndex(j) <= (if t == Short then 65535 else INT_MAX)
    ensures Stored(t, QuadIndex(j)) == QuadIndex(j) == Stored(Integer, QuadIndex(j))
  {
    IndicesBelowVertexCount(count, j);
  }

  /** The caller's six elements per quad, written for quads `0 .. primitiveCount - 1`. */
  method CreateIndexBuffer(t: IndexType, buf: array<int>, primitiveCount: int)
    requires primitiveCount <= 0 || ELEMENTS_PER_PRIMITIVE * primitiveCount <= buf.Length
    modifies buf
    ensures forall j :: 0 <= j < buf.Length ==>
      buf[j] == if j < ELEMENTS_PER_PRIMITIVE * primitiveCount then Stored(t, QuadIndex(j)) else old(buf[j])
  {
    var vertexOffset := 0;
    var primitiveIndex := 0;
    while primitiveIndex < primitiveCount
      invariant 0 <= primitiveIndex <= if primitiveCount <= 0 then 0 else primitiveCount
      invariant vertexOffset == VERTICES_PER_PRIMITIVE * primitiveIndex
      invariant forall j :: 0 <= j < buf.Length ==>
        buf[j] == if j < ELEMENTS_PER_PRIMITIVE * primitiveIndex then Stored(t, QuadIndex(j)) else old(buf[j])
    {
      WriteQuad(t, buf, primitiveIndex, vertexOffset);
      forall j | 6 * primitiveIndex <= j < 6 * primitiveIndex + 6
        ensures buf[j] == Stored(t, QuadIndex(j))
      {
        QuadIndexOfQuad(primitiveIndex, j - 6 * primitiveIndex);
      }
      vertexOffset := vertexOffset + VERTICES_PER_PRIMITIVE;
      primitiveIndex := primitiveIndex + 1;
    }
  }

  /** One iteration: element `r` of quad `k`, whose first vertex is `vertexOffset`, names corner `Pattern(r)`. */
  method WriteQuad(t: IndexType, buf: array<int>, k: nat, vertexOffset: int)
    requires ELEMENTS_PER_PRIMITIVE * (k + 1) <= buf.Length
    requires vertexOffset == VERTICES_PER_PRIMITIVE * k
    modifies buf
    ensures forall j :: 0 <= j < buf.Length && !(6 * k <= j < 6 * k + 6) ==> buf[j] == old(buf[j])
    ensures forall r :: 0 <= r < 6 ==> buf[6 * k + r] == Stored(t, 4 * k + Pattern(r))
  {
    var indexOffset := k * ELEMENTS_PER_PRIMITIVE;
    buf[indexOffset + 0] := Stored(t, vertexOffset + 0);
    buf[indexOffset + 1] := Stored(t, vertexOffset + 1);
    buf[indexOffset + 2] := Stored(t, vertexOffset + 2);
    buf[indexOffset + 3] := Stored(t, vertexOffset + 2);
    buf[indexOffset + 4] := Stored(t, vertexOffset + 3);
    buf[indexOffset + 5] := Stored(t, vertexOffset + 0);
  }

  /** The size a buffer grows to when it must hold `primitiveCount` quads but holds `maxPrimitives`. */
  function NextSize(t: IndexType, maxPrimitives: int, primitiveCount: int): int
  {
    Min(Max(maxPrimitives * 2, primitiveCount + 16384), MaxPrimitiveCount(t))
  }

  /**
   * Growth is monotone and sufficient: the new size covers the request, exceeds the old
   * size, never passes the type's cap, and is at least double the old size or the request
   * plus 16384 quads unless the cap cuts it; no step of it overflows a Java `int`.
   */
  lemma NextSizeGrows(t: IndexType, maxPrimitives: int, primitiveCount: int)
    requires 0 <= maxPrimitives <= MaxPrimitiveCount(t)
    requires maxPrimitives < primitiveCount <= MaxElementCount(t) / ELEMENTS_PER_PRIMITIVE
    ensures var n := NextSize(t, maxPrimitives, primitiveCount);
      primitiveCount <= n <= MaxPrimitiveCount(t) && maxPrimitives < n &&
      (n == MaxPrimitiveCount(t) || (n >= 2 * maxPrimitives && n >= primitiveCount + 16384))
    ensures maxPrimitives * 2 <= INT_MAX && primitiveCount + 16384 <= INT_MAX
  {
  }

  /** Result of asking for room for a number of elements. */
  datatype Outcome = Reserved | TooManyElements

  class SharedQuadIndexBuffer {
    const indexType: IndexType
    /** Number of quads the buffer holds indices for. */
    var maxPrimitives: int
    /** The buffer's storage, one entry per element. */
    var storage: array<int>

    /** The storage holds exactly the quad pattern for `maxPrimitives` quads. */
    ghost predicate Valid()
      reads this, storage
    {
      0 <= maxPrimitives <= MaxPrimitiveCount(indexType) &&
      storage.Length == ELEMENTS_PER_PRIMITIVE * maxPrimitives &&
      forall j :: 0 <= j < storage.Length ==> storage[j] == Stored(indexType, QuadIndex(j))
    }

    constructor (indexType: IndexType)
      ensures Valid()
      ensures this.indexType == indexType && maxPrimitives == 0
    {
      this.indexType := indexType;
      maxPrimitives := 0;
      storage := new int[0];
    }

    /** Make room for `elementCount` elements, growing when the current quads do not suffice. */
    method EnsureCapacity(elementCount: i32) returns (r: Outcome)
      requires Valid()
      modifies this
      ensures Valid()
      ensures r == TooManyElements <==> elementCount > MaxElementCount(indexType)
      ensures r == TooManyElements || TruncDiv(elementCount, 6) <= old(maxPrimitives) ==>
        maxPrimitives == old(maxPrimitives) && storage == old(storage)
      ensures r == Reserved ==> TruncDiv(elementCount, 6) <= maxPrimitives
      ensures old(maxPrimitives) <= maxPrimitives <= MaxPrimitiveCount(indexType)
      ensures r == Reserved && old(maxPrimitives) < TruncDiv(elementCount, 6) ==>
        maxPrimitives == NextSize(indexType, old(maxPrimitives), TruncDiv(elementCount, 6)) && fresh(storage)
    {
      if elementCount > MaxElementCount(indexType) {
        return TooManyElements;
      }
      var primitiveCount := TruncDiv(elementCount, ELEMENTS_PER_PRIMITIVE);
      if primitiveCount > maxPrimitives {
        NextSizeGrows(indexType, maxPrimitives, primitiveCount);
        Grow(NextSize(indexType, maxPrimitives, primitiveCount));
      }
      return Reserved;
    }

    /** Replace the storage by one holding the pattern for exactly `primitiveCount` quads. */
    method Grow(primitiveCount: int)
      requires 0 <= primitiveCount <= MaxPrimitiveCount(indexType)
      modifies this
      ensures Valid()
      ensures maxPrimitives == primitiveCount && fresh(storage)
    {
      var region := new int[ELEMENTS_PER_PRIMITIVE * primitiveCount];
      CreateIndexBuffer(indexType, region, primitiveCount);
      storage := region;
      maxPrimitives := primitiveCount;
    }
  }
}
