/** The two result records a mesh analysis hands to its consumers
    (namespace `Cork::Statistics`).

    `GeometricStatistics` is written once by its constructor and only read
    afterwards, so its stored values are `const` fields: reading one is the
    `const` accessor of the same name. `TopologicalStatistics` owns its list of
    non-two-manifold edges through a `std::unique_ptr`, and both of its
    constructors move that ownership out of another pointer, which they leave
    null.
 */
module Statistics {
  import opened Ownership

  /** `size_t`: counts are stored, never computed with, so no wrap-around arises. */
  newtype SizeT = x: int | 0 <= x < 0x1_0000_0000_0000_0000

  /** `std::vector<EdgeBase>`: a heap object that can be changed through any reference to it. */
  class EdgeVector<Edge> {
    var items: seq<Edge>

    constructor (items: seq<Edge>)
      ensures this.items == items
    {
      this.items := items;
    }
  }

  /** `std::unique_ptr<EdgeVector>`: a nullable, exclusively owning pointer. */
  class EdgeVectorPtr<Edge> {
    var ptr: EdgeVector?<Edge>

    constructor (ptr: EdgeVector?<Edge>)
      ensures this.ptr == ptr
    {
      this.ptr := ptr;
    }

    /** Move construction: this pointer takes what `src` held and `src` becomes null. */
    constructor Take(src: EdgeVectorPtr<Edge>)
      modifies src
      ensures ptr == old(src.ptr) && src.ptr == null
    {
      ptr := src.ptr;
      new;
      src.ptr := null;
    }
  }

  /** `Box(!new)`: the box is a value with no heap references in it, so the record's
      copy cannot be reached, let alone changed, through anything the caller keeps. */
  class GeometricStatistics<Box(!new)> {
    const numVertices: SizeT
    const numTriangles: SizeT
    const area: real
    const volume: real
    const minEdgeLength: real
    const maxEdgeLength: real
    /** A copy of the caller's box, owned by this record alone. */
    const boundingBox: Box

    /** Stores every argument unchanged; nothing is checked or computed. */
    constructor (numVertices: SizeT, numTriangles: SizeT, area: real, volume: real,
                 minEdgeLength: real, maxEdgeLength: real, boundingBox: Box)
      ensures this.numVertices == numVertices && this.numTriangles == numTriangles
      ensures this.area == area && this.volume == volume
      ensures this.minEdgeLength == minEdgeLength && this.maxEdgeLength == maxEdgeLength
      ensures this.boundingBox == boundingBox
    {
      this.numVertices := numVertices;
      this.numTriangles := numTriangles;
      this.area := area;
      this.volume := volume;
      this.minEdgeLength := minEdgeLength;
      this.maxEdgeLength := maxEdgeLength;
      this.boundingBox := boundingBox;
    }
  }

  class TopologicalStatistics<Edge> {
    const numEdges: SizeT
    const numBodies: SizeT
    /** The member `unique_ptr` that owns the non-two-manifold edge list. */
    const owner: EdgeVectorPtr<Edge>

    /** Takes over the caller's list, leaving the caller's pointer null. A null
        pointer is accepted; only the two list accessors need a list. */
    constructor (numEdges: SizeT, numBodies: SizeT, nonTwoManifoldEdges: EdgeVectorPtr<Edge>)
      modifies nonTwoManifoldEdges
      ensures this.numEdges == numEdges && this.numBodies == numBodies
      ensures fresh(owner)
      ensures owner.ptr == old(nonTwoManifoldEdges.ptr) && nonTwoManifoldEdges.ptr == null
      ensures old(nonTwoManifoldEdges.ptr) != null ==> owner.ptr.items == old(nonTwoManifoldEdges.ptr.items)
    {
      this.numEdges := numEdges;
      this.numBodies := numBodies;
      owner := new EdgeVectorPtr.Take(nonTwoManifoldEdges);
    }

    /** Move construction: copies the counts and steals the list, leaving the
        source's pointer null. */
    constructor Move(statsToMove: TopologicalStatistics<Edge>)
      modifies statsToMove.owner
      ensures numEdges == statsToMove.numEdges && numBodies == statsToMove.numBodies
      ensures fresh(owner)
      ensures owner.ptr == old(statsToMove.owner.ptr) && statsToMove.owner.ptr == null
      ensures old(statsToMove.owner.ptr) != null ==> owner.ptr.items == old(statsToMove.owner.ptr.items)
    {
      numEdges := statsToMove.numEdges;
      numBodies := statsToMove.numBodies;
      owner := new EdgeVectorPtr.Take(statsToMove.owner);
    }

    /** Computed at call time from the list the record owns; the list must exist. */
    function IsTwoManifold(): (twoManifold: bool)
      reads owner, owner.ptr
      requires owner.ptr != null
      ensures twoManifold <==> |owner.ptr.items| == 0
    {
      owner.ptr.items == []
    }

    /** The owned list itself, by reference: the very object handed to the constructor. */
    function NonTwoManifoldEdges(): (edges: EdgeVector<Edge>)
      reads owner
      requires owner.ptr != null
      ensures edges == owner.ptr
      ensures |edges.items| == 0 <==> IsTwoManifold()
    {
      owner.ptr
    }
  }

  /** Objects listed at most once. */
  ghost predicate Distinct<Edge>(owners: seq<EdgeVectorPtr<Edge>>)
  {
    forall j, k :: 0 <= j < k < |owners| ==> owners[j] != owners[k]
  }

  /** The ownership ledger of a collection of pointers: what each one holds. */
  ghost function Slots<Edge>(owners: seq<EdgeVectorPtr<Edge>>): (slots: seq<Option<EdgeVector<Edge>>>)
    reads owners
    ensures |slots| == |owners|
    ensures forall j :: 0 <= j < |owners| ==> (slots[j] == None <==> owners[j].ptr == null)
    ensures forall j :: 0 <= j < |owners| && slots[j].Some? ==> slots[j].value == owners[j].ptr
  {
    seq(|owners|, j requires 0 <= j < |owners| reads owners =>
      if owners[j].ptr == null then None
      else var held: EdgeVector<Edge> := owners[j].ptr; Some(held))
  }

  /** The owning constructor, seen from the whole program: if no list had two
      owners before, none has afterwards, and no list is lost or duplicated. */
  method ConstructKeepsSingleOwner<Edge>(edgeCount: SizeT, bodyCount: SizeT, handle: EdgeVectorPtr<Edge>,
                                         ghost owners: seq<EdgeVectorPtr<Edge>>, ghost i: nat)
    returns (stats: TopologicalStatistics<Edge>)
    requires i < |owners| && owners[i] == handle && Distinct(owners)
    requires SingleOwner(Slots(owners))
    modifies handle
    ensures SingleOwner(Slots(owners + [stats.owner]))
    ensures Owned(Slots(owners + [stats.owner])) == old(Owned(Slots(owners)))
    ensures fresh(stats.owner) && Distinct(owners + [stats.owner])
    ensures stats.owner.ptr == old(handle.ptr) && handle.ptr == null
  {
    ghost var before := Slots(owners);
    stats := new TopologicalStatistics(edgeCount, bodyCount, handle);
    assert Slots(owners + [stats.owner]) == Take(before, i);
    TakeKeepsSingleOwner(before, i);
    TakeConservesOwned(before, i);
  }

  /** The move constructor, seen from the whole program: as above. */
  method MoveKeepsSingleOwner<Edge>(statsToMove: TopologicalStatistics<Edge>,
                                    ghost owners: seq<EdgeVectorPtr<Edge>>, ghost i: nat)
    returns (stats: TopologicalStatistics<Edge>)
    requires i < |owners| && owners[i] == statsToMove.owner && Distinct(owners)
    requires SingleOwner(Slots(owners))
    modifies statsToMove.owner
    ensures SingleOwner(Slots(owners + [stats.owner]))
    ensures Owned(Slots(owners + [stats.owner])) == old(Owned(Slots(owners)))
    ensures fresh(stats.owner) && Distinct(owners + [stats.owner])
    ensures stats.owner.ptr == old(statsToMove.owner.ptr) && statsToMove.owner.ptr == null
  {
    ghost var before := Slots(owners);
    stats := new TopologicalStatistics.Move(statsToMove);
    assert Slots(owners + [stats.owner]) == Take(before, i);
    TakeKeepsSingleOwner(before, i);
    TakeConservesOwned(before, i);
  }
}
