/** Concrete uses of the two records: a unit cube's geometry, and the
    topology of a closed mesh and of one with a single bad edge. */
module Scenarios {
  import opened Ownership
  import opened Statistics

  /** An edge named by the two vertex indices it joins; which one comes first carries no meaning. */
  datatype VertexPair = VertexPair(a: nat, b: nat)

  /** The unit cube: 8 vertices, 12 triangles, area 6, volume 1, edges of length 1 and
      (on the face diagonals) about sqrt 2. Every value read back is the one stored. */
  method UnitCube<Box(!new)>(box: Box)
    returns (vertices: SizeT, triangles: SizeT, area: real, volume: real,
             minEdge: real, maxEdge: real, boxRead: Box)
    ensures vertices == 8 && triangles == 12
    ensures area == 6.0 && volume == 1.0
    ensures minEdge == 1.0 && maxEdge == 1.41421356
    ensures boxRead == box
  {
    var stats := new GeometricStatistics(8, 12, 6.0, 1.0, 1.0, 1.41421356, box);
    vertices, triangles := stats.numVertices, stats.numTriangles;
    area, volume := stats.area, stats.volume;
    minEdge, maxEdge := stats.minEdgeLength, stats.maxEdgeLength;
    boxRead := stats.boundingBox;
  }

  /** A closed mesh: no bad edges, so the record reports a two-manifold. */
  method ClosedMesh() returns (edges: SizeT, bodies: SizeT, twoManifold: bool)
    ensures edges == 18 && bodies == 1 && twoManifold
  {
    var list := new EdgeVector<VertexPair>([]);
    var handle := new EdgeVectorPtr(list);
    var stats := new TopologicalStatistics(18, 1, handle);
    edges, bodies := stats.numEdges, stats.numBodies;
    twoManifold := stats.IsTwoManifold();
  }

  /** One bad edge (3, 7): not a two-manifold, the record exposes the caller's own list
      with exactly that edge, and the caller's pointer is left null. */
  method OneBadEdge()
    returns (twoManifold: bool, reported: seq<VertexPair>, sameList: bool, callerStillOwns: bool)
    ensures !twoManifold && reported == [VertexPair(3, 7)]
    ensures sameList && !callerStillOwns
  {
    var list := new EdgeVector([VertexPair(3, 7)]);
    var handle := new EdgeVectorPtr(list);
    var stats := new TopologicalStatistics(18, 1, handle);
    twoManifold := stats.IsTwoManifold();
    var edges := stats.NonTwoManifoldEdges();
    reported := edges.items;
    sameList := edges == list;
    callerStillOwns := handle.ptr != null;
  }

  /** Moving the record of `OneBadEdge`: the new record has the counts and the very same
      list; the moved-from record holds no list, so its list accessors may not be called. */
  method MoveOneBadEdge()
    returns (edges: SizeT, bodies: SizeT, twoManifold: bool, reported: seq<VertexPair>,
             sameList: bool, sourceQueryable: bool)
    ensures edges == 18 && bodies == 1
    ensures !twoManifold && reported == [VertexPair(3, 7)] && sameList
    ensures !sourceQueryable
  {
    var list := new EdgeVector([VertexPair(3, 7)]);
    var handle := new EdgeVectorPtr(list);
    var a := new TopologicalStatistics(18, 1, handle);
    var b := new TopologicalStatistics.Move(a);
    edges, bodies := b.numEdges, b.numBodies;
    twoManifold := b.IsTwoManifold();
    reported := b.NonTwoManifoldEdges().items;
    sameList := b.NonTwoManifoldEdges() == list;
    sourceQueryable := a.owner.ptr != null;
  }

  /** `IsTwoManifold` is not cached: an edge added through the reference that
      `NonTwoManifoldEdges` hands out changes its answer. */
  method NotCached(e: VertexPair) returns (before: bool, after: bool)
    ensures before && !after
  {
    var list := new EdgeVector([]);
    var handle := new EdgeVectorPtr(list);
    var stats := new TopologicalStatistics(5, 2, handle);
    before := stats.IsTwoManifold();
    var edges := stats.NonTwoManifoldEdges();
    edges.items := edges.items + [e];
    after := stats.IsTwoManifold();
  }

  /** Built from a null pointer, a record holds no list: construction succeeds, but
      its list accessors may not be called. */
  method FromNullHandle() returns (edges: SizeT, bodies: SizeT, queryable: bool)
    ensures edges == 4 && bodies == 1 && !queryable
  {
    var handle := new EdgeVectorPtr<VertexPair>(null);
    var stats := new TopologicalStatistics(4, 1, handle);
    edges, bodies := stats.numEdges, stats.numBodies;
    queryable := stats.owner.ptr != null;
  }

  /** Two transfers in a row, construction and then a move, with the single-owner
      guarantee carried from the first to the second: the list ends up with the
      second record alone, held exactly once, and neither earlier pointer holds it. */
  method ConstructThenMove(list: EdgeVector<VertexPair>)
    returns (handle: EdgeVectorPtr<VertexPair>, a: TopologicalStatistics<VertexPair>,
             b: TopologicalStatistics<VertexPair>)
    ensures SingleOwner(Slots([handle, a.owner, b.owner]))
    ensures Owned(Slots([handle, a.owner, b.owner])) == multiset{list}
    ensures handle.ptr == null && a.owner.ptr == null && b.owner.ptr == list
  {
    handle := new EdgeVectorPtr(list);
    assert Slots([handle]) == [Some(list)];
    assert [Some(list)][1..] == [];
    assert Owned([Some(list)]) == Held(Some(list)) + Owned([]);
    ghost var held := Owned(Slots([handle]));
    assert held == multiset{list};
    a := ConstructKeepsSingleOwner(18, 1, handle, [handle], 0);
    assert [handle] + [a.owner] == [handle, a.owner];
    ghost var heldBetween := Owned(Slots([handle, a.owner]));
    assert heldBetween == held;
    b := MoveKeepsSingleOwner(a, [handle, a.owner], 1);
    assert [handle, a.owner] + [b.owner] == [handle, a.owner, b.owner];
  }
}
