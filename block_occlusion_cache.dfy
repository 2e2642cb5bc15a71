/**
 * BlockOcclusionCache: whether one face of a block must be meshed, decided from the
 * neighbour's state and the two culling faces, with the final shape comparison memoised in
 * a bounded table kept in most-recently-used order.
 *
 * Block states and voxel shapes are opaque objects of the game; they are modelled by
 * identities (`int`), and everything the decision asks of them is passed in as a `World`
 * and a `ShapeOps` value.
 */
module BlockOcclusion {
  import opened Directions
  import opened Wrappers

  /** Largest number of memoised comparisons before the least recently used one is dropped. */
  const CACHE_SIZE: nat := 512

  /** Table values: the default return value for a missing key, and the two stored answers. */
  const ENTRY_ABSENT: int := -1
  const ENTRY_FALSE: int := 0
  const ENTRY_TRUE: int := 1

  /** Identity of the cache's own scratch comparison object. */
  const SCRATCH: nat := 0

  /** A block state and a voxel shape, by identity. */
  type BlockState = int
  type Shape = int

  /** What one decision asks of the world: the neighbour's state and the states' queries. */
  datatype World = World(
    stateAt: Pos -> BlockState,
    sideInvisible: (BlockState, BlockState, Direction) -> bool,
    isOpaque: BlockState -> bool,
    cullingFace: (BlockState, Pos, Direction) -> Shape)

  /** Shape queries: emptiness, the full-cube singleton, and "first is visible somewhere". */
  datatype ShapeOps = ShapeOps(
    isEmpty: Shape -> bool,
    fullCube: Shape,
    onlyFirstAnywhere: (Shape, Shape) -> bool)

  /** The outcome of the cheap tests: a final answer, or the pair of faces to compare. */
  datatype Decision = Decided(draw: bool) | Compare(self: Shape, other: Shape)

  /** The chain of early exits before the shape comparison, in the order the code tests them. */
  function Decide(w: World, shapes: ShapeOps, selfState: BlockState, selfPos: Pos, facing: Direction): (d: Decision)
    ensures d.Compare? ==> d.self == w.cullingFace(selfState, selfPos, facing)
    ensures d.Compare? ==>
      d.other == w.cullingFace(w.stateAt(Step(selfPos, facing)), Step(selfPos, facing), Opposite(facing))
  {
    var otherPos := Step(selfPos, facing);
    var otherState := w.stateAt(otherPos);
    if w.sideInvisible(selfState, otherState, facing) then Decided(false)
    else if !w.isOpaque(otherState) then Decided(true)
    else
      var selfShape := w.cullingFace(selfState, selfPos, facing);
      if shapes.isEmpty(selfShape) then Decided(true)
      else
        var otherShape := w.cullingFace(otherState, otherPos, Opposite(facing));
        if shapes.isEmpty(otherShape) then Decided(true)
        else if selfShape == shapes.fullCube && otherShape == shapes.fullCube then Decided(false)
        else Compare(selfShape, otherShape)
  }

  /** Whether the face is drawn, with no memo: the cheap answer or the comparison it defers to. */
  function DrawSide(w: World, shapes: ShapeOps, selfState: BlockState, selfPos: Pos, facing: Direction): bool
  {
    match Decide(w, shapes, selfState, selfPos, facing)
    case Decided(b) => b
    case Compare(s, o) => shapes.onlyFirstAnywhere(s, o)
  }

  /** The rules the decision follows, each stated on the inputs alone. */
  lemma DrawSideRules(w: World, shapes: ShapeOps, selfState: BlockState, selfPos: Pos, facing: Direction)
    ensures var otherPos := Step(selfPos, facing);
      var otherState := w.stateAt(otherPos);
      var selfShape := w.cullingFace(selfState, selfPos, facing);
      var otherShape := w.cullingFace(otherState, otherPos, Opposite(facing));
      var draw := DrawSide(w, shapes, selfState, selfPos, facing);
      // a face the state pair hides is never drawn
      (w.sideInvisible(selfState, otherState, facing) ==> !draw) &&
      // otherwise a see-through neighbour or an empty culling face means it is drawn
      (!w.sideInvisible(selfState, otherState, facing) && !w.isOpaque(otherState) ==> draw) &&
      (!w.sideInvisible(selfState, otherState, facing) && shapes.isEmpty(selfShape) ==> draw) &&
      (!w.sideInvisible(selfState, otherState, facing) && shapes.isEmpty(otherShape) ==> draw) &&
      // two full cubes against an opaque neighbour hide each other
      ((!w.sideInvisible(selfState, otherState, facing) && w.isOpaque(otherState) &&
        !shapes.isEmpty(shapes.fullCube) && selfShape == shapes.fullCube && otherShape == shapes.fullCube)
       ==> !draw) &&
      // the comparison is consulted exactly when none of the cheap tests settles it
      (Decide(w, shapes, selfState, selfPos, facing).Compare? <==>
        !w.sideInvisible(selfState, otherState, facing) && w.isOpaque(otherState) &&
        !shapes.isEmpty(selfShape) && !shapes.isEmpty(otherShape) &&
        !(selfShape == shapes.fullCube && otherShape == shapes.fullCube))
  {
    match Decide(w, shapes, selfState, selfPos, facing)
    case Decided(_) =>
    case Compare(_, _) =>
  }

  /** How memo keys are compared: by object identity (as written) or by the two shapes. */
  datatype KeyEquality = ByIdentity | ByContents

  /** A comparison object: its identity and its two shape fields (`null` as `None`). */
  datatype Comparison = Comparison(ref: nat, self: Option<Shape>, other: Option<Shape>)

  predicate Matches(eq: KeyEquality, a: Comparison, b: Comparison)
  {
    match eq
    case ByIdentity => a.ref == b.ref
    case ByContents => a.self == b.self && a.other == b.other
  }

  /** One memo entry; the table lists them from most to least recently used. */
  datatype Entry = Entry(key: Comparison, value: int)

  function Encode(b: bool): (v: int)
    ensures v == ENTRY_TRUE <==> b
    ensures v == ENTRY_FALSE <==> !b
  {
    if b then ENTRY_TRUE else ENTRY_FALSE
  }

  /** No two entries have keys equal under `eq`. */
  ghost predicate Distinct(eq: KeyEquality, t: seq<Entry>)
  {
    forall i, j :: 0 <= i < j < |t| ==> !Matches(eq, t[i].key, t[j].key)
  }

  /** Position of the entry whose key equals `k`, or -1 when there is none. */
  function Find(t: seq<Entry>, eq: KeyEquality, k: Comparison): (r: int)
    ensures -1 <= r < |t|
    ensures 0 <= r ==> Matches(eq, t[r].key, k)
    ensures 0 <= r ==> forall j :: 0 <= j < r ==> !Matches(eq, t[j].key, k)
    ensures r < 0 <==> forall j :: 0 <= j < |t| ==> !Matches(eq, t[j].key, k)
  {
    if |t| == 0 then -1
    else if Matches(eq, t[0].key, k) then 0
    else
      var r := Find(t[1..], eq, k);
      if r < 0 then -1 else r + 1
  }

  /** The table after entry `i` is used: that entry first, the others in their old order. */
  function MoveToFirst(t: seq<Entry>, i: nat): seq<Entry>
    requires i < |t|
  {
    [t[i]] + t[..i] + t[i + 1..]
  }

  /** The table before an insertion: the least recently used entry goes once the table is full. */
  function Evict(t: seq<Entry>): seq<Entry>
  {
    if |t| >= CACHE_SIZE then t[..|t| - 1] else t
  }

  /** Store `v` under `k`: an existing equal key keeps its object, takes `v` and becomes first. */
  function PutAndMoveToFirst(t: seq<Entry>, eq: KeyEquality, k: Comparison, v: int): seq<Entry>
  {
    var i := Find(t, eq, k);
    if 0 <= i then MoveToFirst(t[i := Entry(t[i].key, v)], i)
    else [Entry(k, v)] + t
  }

  /**
   * The table after a comparison of `s` against `o` that was not settled cheaply: a hit
   * moves the entry first; a miss evicts if full and stores a copy with identity `nextId`.
   */
  function AfterLookup(t: seq<Entry>, eq: KeyEquality, nextId: nat, s: Shape, o: Shape, result: bool): seq<Entry>
  {
    var i := Find(t, eq, Comparison(SCRATCH, Some(s), Some(o)));
    if 0 <= i then MoveToFirst(t, i)
    else PutAndMoveToFirst(Evict(t), eq, Comparison(nextId, Some(s), Some(o)), Encode(result))
  }

  /** Where entry `j` of `MoveToFirst(t, i)` came from. */
  function MovedFrom(i: nat, j: nat): nat
  {
    if j == 0 then i else if j <= i then j - 1 else j
  }

  /** Moving entry `i` first shifts the entries before it down by one and leaves the rest. */
  lemma MoveToFirstOrder(t: seq<Entry>, i: nat)
    requires i < |t|
    ensures var r := MoveToFirst(t, i);
      |r| == |t| && r[0] == t[i] &&
      (forall j :: 0 <= j < i ==> r[j + 1] == t[j]) &&
      (forall j :: i < j < |t| ==> r[j] == t[j]) &&
      (forall j :: 0 <= j < |t| ==> r[j] == t[MovedFrom(i, j)])
  {
    var r := MoveToFirst(t, i);
    forall j | 0 <= j < |t| ensures r[j] == t[MovedFrom(i, j)] {
      if j == 0 {
      } else if j <= i {
        assert r[j] == t[..i][j - 1];
      } else {
        assert r[j] == t[i + 1..][j - i - 1];
      }
    }
    forall j | 0 <= j < i ensures r[j + 1] == t[j] {
      assert MovedFrom(i, j + 1) == j;
    }
  }

  /** Moving an entry first neither adds nor drops nor changes an entry. */
  lemma MoveToFirstKeepsEntries(t: seq<Entry>, i: nat)
    requires i < |t|
    ensures multiset(MoveToFirst(t, i)) == multiset(t)
  {
    assert t == t[..i] + [t[i]] + t[i + 1..];
  }

  /** A stored value is the encoded answer for its key's two shapes. */
  ghost predicate Stored(shapes: ShapeOps, e: Entry)
  {
    e.key.self.Some? && e.key.other.Some? &&
    e.value == Encode(shapes.onlyFirstAnywhere(e.key.self.value, e.key.other.value))
  }

  ghost predicate AllStored(shapes: ShapeOps, t: seq<Entry>)
  {
    forall j :: 0 <= j < |t| ==> Stored(shapes, t[j])
  }

  /** Keys in the table are stored copies: never the scratch object, all numbered below `nextId`. */
  ghost predicate CopiesBelow(t: seq<Entry>, nextId: nat)
  {
    SCRATCH < nextId && forall j :: 0 <= j < |t| ==> SCRATCH < t[j].key.ref < nextId
  }

  /** Moving an entry first keeps the keys distinct. */
  lemma MoveToFirstKeepsDistinct(eq: KeyEquality, t: seq<Entry>, i: nat)
    requires i < |t| && Distinct(eq, t)
    ensures Distinct(eq, MoveToFirst(t, i))
  {
    var r := MoveToFirst(t, i);
    MoveToFirstOrder(t, i);
    forall a, b | 0 <= a < b < |r| ensures !Matches(eq, r[a].key, r[b].key) {
      var a', b' := MovedFrom(i, a), MovedFrom(i, b);
      if a' < b' {
        assert !Matches(eq, t[a'].key, t[b'].key);
      } else {
        assert !Matches(eq, t[b'].key, t[a'].key);
      }
    }
  }

  /** Moving an entry first keeps every entry correct and every key a stored copy. */
  lemma MoveToFirstKeepsEntryFacts(shapes: ShapeOps, nextId: nat, t: seq<Entry>, i: nat)
    requires i < |t|
    ensures AllStored(shapes, t) ==> AllStored(shapes, MoveToFirst(t, i))
    ensures CopiesBelow(t, nextId) ==> CopiesBelow(MoveToFirst(t, i), nextId)
  {
    var r := MoveToFirst(t, i);
    MoveToFirstOrder(t, i);
    if AllStored(shapes, t) {
      forall j | 0 <= j < |r| ensures Stored(shapes, r[j]) {
        assert Stored(shapes, t[MovedFrom(i, j)]);
      }
    }
    if CopiesBelow(t, nextId) {
      forall j | 0 <= j < |r| ensures SCRATCH < r[j].key.ref < nextId {
        assert SCRATCH < t[MovedFrom(i, j)].key.ref < nextId;
      }
    }
  }

  /** A key absent from the table is stored first, ahead of every old entry. */
  lemma PutAfterMiss(t: seq<Entry>, eq: KeyEquality, k: Comparison, v: int)
    requires Find(t, eq, k) < 0
    ensures PutAndMoveToFirst(t, eq, k, v) == [Entry(k, v)] + t
    ensures Distinct(eq, t) ==> Distinct(eq, [Entry(k, v)] + t)
  {
    if Distinct(eq, t) {
      var r := [Entry(k, v)] + t;
      forall a, b | 0 <= a < b < |r| ensures !Matches(eq, r[a].key, r[b].key) {
        if a == 0 {
          assert !Matches(eq, t[b - 1].key, k);
        } else {
          assert r[a] == t[a - 1] && r[b] == t[b - 1];
        }
      }
    }
  }

  /** A correct entry with the next identity, put first, keeps the table's invariants. */
  lemma PrependKeepsInvariants(shapes: ShapeOps, t: seq<Entry>, e: Entry)
    requires AllStored(shapes, t) && CopiesBelow(t, e.key.ref) && Stored(shapes, e)
    ensures AllStored(shapes, [e] + t) && CopiesBelow([e] + t, e.key.ref + 1)
  {
    var r := [e] + t;
    forall j | 0 <= j < |r| ensures Stored(shapes, r[j]) && SCRATCH < r[j].key.ref < e.key.ref + 1 {
      if 0 < j {
        assert r[j] == t[j - 1];
      }
    }
  }

  /** Evicting drops exactly the last (least recently used) entry, and only when full. */
  lemma EvictDropsLeastRecent(t: seq<Entry>)
    ensures |t| < CACHE_SIZE ==> Evict(t) == t
    ensures |t| >= CACHE_SIZE ==> Evict(t) + [t[|t| - 1]] == t
    ensures |Evict(t)| < CACHE_SIZE || |Evict(t)| == |t| - 1
  {
  }

  /** Evicting keeps every miss, distinct keys, and every key a stored copy. */
  lemma EvictKeepsInvariants(eq: KeyEquality, nextId: nat, t: seq<Entry>, k: Comparison)
    ensures Find(t, eq, k) < 0 ==> Find(Evict(t), eq, k) < 0
    ensures Distinct(eq, t) ==> Distinct(eq, Evict(t))
    ensures CopiesBelow(t, nextId) ==> CopiesBelow(Evict(t), nextId)
  {
    var e := Evict(t);
    assert forall j :: 0 <= j < |e| ==> e[j] == t[j];
  }

  /** Evicting keeps every remaining entry correct. */
  lemma EvictKeepsStored(shapes: ShapeOps, t: seq<Entry>)
    requires AllStored(shapes, t)
    ensures AllStored(shapes, Evict(t))
  {
    var e := Evict(t);
    assert forall j :: 0 <= j < |e| ==> e[j] == t[j];
  }

  /** A copy with a new identity and the scratch object's contents misses wherever the scratch misses. */
  lemma FreshCopyMisses(t: seq<Entry>, eq: KeyEquality, scratch: Comparison, copy: Comparison)
    requires Find(t, eq, scratch) < 0
    requires copy.self == scratch.self && copy.other == scratch.other
    requires CopiesBelow(t, copy.ref)
    ensures Find(t, eq, copy) < 0
  {
    forall j | 0 <= j < |t| ensures !Matches(eq, t[j].key, copy) {
      assert !Matches(eq, t[j].key, scratch);
    }
  }

  /** The invariant the cache keeps on its table. */
  ghost predicate TableInvariant(shapes: ShapeOps, eq: KeyEquality, nextId: nat, t: seq<Entry>)
  {
    |t| <= CACHE_SIZE && Distinct(eq, t) && CopiesBelow(t, nextId) && AllStored(shapes, t)
  }

  /**
   * A hit on the scratch key can only happen with keys compared by contents; the stored
   * value is then the right answer for the two shapes, and moving it first keeps the invariant.
   */
  lemma HitKeepsInvariant(shapes: ShapeOps, eq: KeyEquality, nextId: nat, t: seq<Entry>, s: Shape, o: Shape)
    requires TableInvariant(shapes, eq, nextId, t)
    requires 0 <= Find(t, eq, Comparison(SCRATCH, Some(s), Some(o)))
    ensures eq == ByContents
    ensures var i := Find(t, eq, Comparison(SCRATCH, Some(s), Some(o)));
      t[i].value == Encode(shapes.onlyFirstAnywhere(s, o)) &&
      TableInvariant(shapes, eq, nextId, MoveToFirst(t, i))
  {
    var i := Find(t, eq, Comparison(SCRATCH, Some(s), Some(o)));
    assert Stored(shapes, t[i]) && SCRATCH < t[i].key.ref;
    MoveToFirstKeepsDistinct(eq, t, i);
    MoveToFirstKeepsEntryFacts(shapes, nextId, t, i);
  }

  /**
   * On a miss the correct answer, stored under a copy numbered `nextId`, goes first; the
   * table keeps its invariant with the next number one higher.
   */
  lemma MissKeepsInvariant(shapes: ShapeOps, eq: KeyEquality, nextId: nat, t: seq<Entry>, s: Shape, o: Shape)
    requires TableInvariant(shapes, eq, nextId, t)
    requires Find(t, eq, Comparison(SCRATCH, Some(s), Some(o))) < 0
    ensures var e := Entry(Comparison(nextId, Some(s), Some(o)), Encode(shapes.onlyFirstAnywhere(s, o)));
      PutAndMoveToFirst(Evict(t), eq, e.key, e.value) == [e] + Evict(t) &&
      TableInvariant(shapes, eq, nextId + 1, [e] + Evict(t))
  {
    var scratch := Comparison(SCRATCH, Some(s), Some(o));
    var e := Entry(Comparison(nextId, Some(s), Some(o)), Encode(shapes.onlyFirstAnywhere(s, o)));
    EvictKeepsInvariants(eq, nextId, t, scratch);
    EvictKeepsStored(shapes, t);
    FreshCopyMisses(Evict(t), eq, scratch, e.key);
    PutAfterMiss(Evict(t), eq, e.key, e.value);
    PrependKeepsInvariants(shapes, Evict(t), e);
  }

  /** Every lookup keeps the invariant: at most `CACHE_SIZE` distinct, correct entries. */
  lemma LookupKeepsInvariant(shapes: ShapeOps, eq: KeyEquality, nextId: nat, t: seq<Entry>, s: Shape, o: Shape)
    requires TableInvariant(shapes, eq, nextId, t)
    ensures var hit := 0 <= Find(t, eq, Comparison(SCRATCH, Some(s), Some(o)));
      TableInvariant(shapes, eq, if hit then nextId else nextId + 1,
        AfterLookup(t, eq, nextId, s, o, shapes.onlyFirstAnywhere(s, o)))
  {
    if 0 <= Find(t, eq, Comparison(SCRATCH, Some(s), Some(o))) {
      HitKeepsInvariant(shapes, eq, nextId, t, s, o);
    } else {
      MissKeepsInvariant(shapes, eq, nextId, t, s, o);
    }
  }

  /** A miss stores the new answer first and keeps every old entry but the evicted one, in order. */
  lemma MissStoresFirst(t: seq<Entry>, eq: KeyEquality, nextId: nat, s: Shape, o: Shape, result: bool)
    requires CopiesBelow(t, nextId)
    requires Find(t, eq, Comparison(SCRATCH, Some(s), Some(o))) < 0
    ensures AfterLookup(t, eq, nextId, s, o, result) ==
      [Entry(Comparison(nextId, Some(s), Some(o)), Encode(result))] + Evict(t)
  {
    var scratch := Comparison(SCRATCH, Some(s), Some(o));
    var copy := Comparison(nextId, Some(s), Some(o));
    EvictKeepsInvariants(eq, nextId, t, scratch);
    FreshCopyMisses(Evict(t), eq, scratch, copy);
    PutAfterMiss(Evict(t), eq, copy, Encode(result));
  }

  /**
   * As written: keys are compared by identity, and the scratch object is never stored, so a
   * lookup misses even right after the same pair of shapes was stored.
   */
  lemma IdentityLookupNeverHits(t: seq<Entry>, nextId: nat, s: Shape, o: Shape, result: bool)
    requires CopiesBelow(t, nextId)
    ensures Find(t, ByIdentity, Comparison(SCRATCH, Some(s), Some(o))) < 0
    ensures var t' := AfterLookup(t, ByIdentity, nextId, s, o, result);
      t'[0].key.self == Some(s) && t'[0].key.other == Some(o) &&
      Find(t', ByIdentity, Comparison(SCRATCH, Some(s), Some(o))) < 0
  {
    var scratch := Comparison(SCRATCH, Some(s), Some(o));
    forall j | 0 <= j < |t| ensures !Matches(ByIdentity, t[j].key, scratch) {
      assert SCRATCH < t[j].key.ref;
    }
    MissStoresFirst(t, ByIdentity, nextId, s, o, result);
    var t' := AfterLookup(t, ByIdentity, nextId, s, o, result);
    EvictKeepsInvariants(ByIdentity, nextId, t, scratch);
    forall j | 0 <= j < |t'| ensures !Matches(ByIdentity, t'[j].key, scratch) {
      if 0 < j {
        assert t'[j] == Evict(t)[j - 1];
      }
    }
  }

  /** Corrected: with keys compared by their shapes, the pair just looked up is found first. */
  lemma ContentLookupHitsAfterLookup(t: seq<Entry>, nextId: nat, s: Shape, o: Shape, result: bool)
    requires CopiesBelow(t, nextId)
    ensures var t' := AfterLookup(t, ByContents, nextId, s, o, result);
      Find(t', ByContents, Comparison(SCRATCH, Some(s), Some(o))) == 0
  {
    var scratch := Comparison(SCRATCH, Some(s), Some(o));
    var i := Find(t, ByContents, scratch);
    if 0 <= i {
      MoveToFirstOrder(t, i);
    } else {
      MissStoresFirst(t, ByContents, nextId, s, o, result);
    }
  }

  /** A hit reorders the table without adding, dropping or changing any entry. */
  lemma HitOnlyReorders(t: seq<Entry>, eq: KeyEquality, nextId: nat, s: Shape, o: Shape, result: bool)
    requires 0 <= Find(t, eq, Comparison(SCRATCH, Some(s), Some(o)))
    ensures var t' := AfterLookup(t, eq, nextId, s, o, result);
      multiset(t') == multiset(t) &&
      Matches(eq, t'[0].key, Comparison(SCRATCH, Some(s), Some(o)))
  {
    var i := Find(t, eq, Comparison(SCRATCH, Some(s), Some(o)));
    MoveToFirstOrder(t, i);
    MoveToFirstKeepsEntries(t, i);
  }

  /** The occlusion cache of one meshing thread. */
  class OcclusionCache {
    const shapes: ShapeOps
    const equality: KeyEquality
    /** The memo table, most recently used first. */
    var table: seq<Entry>
    /** The scratch comparison object reused for every lookup. */
    var comparison: Comparison
    /** The reused mutable position of the neighbour. */
    var otherPos: Pos
    /** Identity the next stored copy receives. */
    var nextRef: nat

    ghost predicate Valid()
      reads this
    {
      comparison.ref == SCRATCH && TableInvariant(shapes, equality, nextRef, table)
    }

    constructor (shapes: ShapeOps, equality: KeyEquality)
      ensures Valid()
      ensures this.shapes == shapes && this.equality == equality
      ensures table == [] && comparison == Comparison(SCRATCH, None, None)
    {
      this.shapes := shapes;
      this.equality := equality;
      table := [];
      comparison := Comparison(SCRATCH, None, None);
      otherPos := Pos(0, 0, 0);
      nextRef := SCRATCH + 1;
    }

    /** Whether the face of `selfState` at `selfPos` towards `facing` must be meshed. */
    method ShouldDrawSide(selfState: BlockState, w: World, selfPos: Pos, facing: Direction) returns (draw: bool)
      requires Valid()
      modifies this
      ensures Valid()
      ensures draw == DrawSide(w, shapes, selfState, selfPos, facing)
      ensures otherPos == Step(selfPos, facing)
      ensures Decide(w, shapes, selfState, selfPos, facing).Decided? ==>
        table == old(table) && nextRef == old(nextRef) && comparison == old(comparison)
      ensures var d := Decide(w, shapes, selfState, selfPos, facing);
        d.Compare? ==> table == AfterLookup(old(table), equality, old(nextRef), d.self, d.other, draw)
      ensures var d := Decide(w, shapes, selfState, selfPos, facing);
        d.Compare? ==> comparison == Comparison(SCRATCH, Some(d.self), Some(d.other))
      ensures var d := Decide(w, shapes, selfState, selfPos, facing);
        d.Compare? ==> nextRef == if 0 <= Find(old(table), equality, comparison) then old(nextRef) else old(nextRef) + 1
    {
      otherPos := Step(selfPos, facing);
      var otherState := w.stateAt(otherPos);
      if w.sideInvisible(selfState, otherState, facing) {
        return false;
      }
      if !w.isOpaque(otherState) {
        return true;
      }
      var selfShape := w.cullingFace(selfState, selfPos, facing);
      if shapes.isEmpty(selfShape) {
        return true;
      }
      var otherShape := w.cullingFace(otherState, otherPos, Opposite(facing));
      if shapes.isEmpty(otherShape) {
        return true;
      }
      if selfShape == shapes.fullCube && otherShape == shapes.fullCube {
        return false;
      }
      draw := Lookup(selfShape, otherShape);
    }

    /** The memoised comparison of `s` against `o`, through the scratch key. */
    method Lookup(s: Shape, o: Shape) returns (result: bool)
      requires Valid()
      modifies this`table, this`comparison, this`nextRef
      ensures Valid()
      ensures result == shapes.onlyFirstAnywhere(s, o)
      ensures comparison == Comparison(SCRATCH, Some(s), Some(o))
      ensures table == AfterLookup(old(table), equality, old(nextRef), s, o, result)
      ensures nextRef == if 0 <= Find(old(table), equality, comparison) then old(nextRef) else old(nextRef) + 1
    {
      comparison := comparison.(self := Some(s), other := Some(o));
      var i := Find(table, equality, comparison);
      var v := ENTRY_ABSENT;
      if 0 <= i {
        v := table[i].value;
        HitKeepsInvariant(shapes, equality, nextRef, table, s, o);
        table := MoveToFirst(table, i);
      }
      if v == ENTRY_FALSE {
        result := false;
      } else if v == ENTRY_TRUE {
        result := true;
      } else {
        result := Calculate();
      }
    }

    /** Compare the scratch key's shapes and store the answer under a copy of the key. */
    method Calculate() returns (result: bool)
      requires Valid()
      requires comparison.self.Some? && comparison.other.Some?
      requires Find(table, equality, comparison) < 0
      modifies this`table, this`nextRef
      ensures Valid()
      ensures result == shapes.onlyFirstAnywhere(comparison.self.value, comparison.other.value)
      ensures table == PutAndMoveToFirst(Evict(old(table)), equality,
        Comparison(old(nextRef), comparison.self, comparison.other), Encode(result))
      ensures nextRef == old(nextRef) + 1
    {
      result := shapes.onlyFirstAnywhere(comparison.self.value, comparison.other.value);
      ghost var t := table;
      MissKeepsInvariant(shapes, equality, nextRef, t, comparison.self.value, comparison.other.value);
      if |table| >= CACHE_SIZE {
        table := table[..|table| - 1];
      }
      assert table == Evict(t);
      var copy := Comparison(nextRef, comparison.self, comparison.other);
      assert copy == Comparison(nextRef, Some(comparison.self.value), Some(comparison.other.value));
      nextRef := nextRef + 1;
      table := PutAndMoveToFirst(table, equality, copy, Encode(result));
    }
  }
}
