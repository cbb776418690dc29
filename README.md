# Cork mesh statistics records, in Dafny

Cork is a mesh boolean library. When it analyses a polygon mesh it reports
the results in two records of namespace `Cork::Statistics`, declared in
`CorkLib/Statistics.h`:

- `GeometricStatistics` is a write-once record. It holds the vertex and
  triangle counts, surface area, volume, the shortest and longest edge
  lengths, and its own copy of the bounding box. The constructor stores the
  values and the accessors read them back. Nothing is computed or checked.
- `TopologicalStatistics` holds the edge and body counts and owns the list of
  non-two-manifold edges through a `std::unique_ptr`. Its constructor takes
  the caller's `unique_ptr` by reference and moves out of it. Its move
  constructor steals the list of another record. In both cases the pointer
  moved from becomes null. `IsTwoManifold()` tests the owned list for
  emptiness each time it is called. `NonTwoManifoldEdges()` hands out a
  reference to the list. Both dereference the owned pointer, so they need it
  to be non-null.

The model has three modules:

- `Statistics` (`statistics.dfy`) holds the two records as classes. The
  write-once values are `const` fields. Reading a `const` field is the `const`
  accessor of the same name, so it changes nothing and always gives the same
  value. The edge list is a heap object, `EdgeVector`, and each
  `std::unique_ptr<EdgeVector>` is an `EdgeVectorPtr` with a nullable `ptr`
  field. This covers both the caller's handle and the record's member. Moving
  into a `unique_ptr` (`std::move`) is the constructor `EdgeVectorPtr.Take`,
  which nulls its source.
- `Ownership` (`ownership.dfy`) is an abstract ledger of exclusive ownership.
  Each pointer is a slot holding at most one list, and a move is `Take`: a
  new slot gets what slot `i` held, and slot `i` is emptied. Its lemmas prove
  that a move, and any sequence of moves, keeps every list with a single
  owner and neither loses nor duplicates a list. `Statistics.Slots` reads
  that ledger off the heap. `ConstructKeepsSingleOwner` and
  `MoveKeepsSingleOwner` carry the guarantee over to the two real
  constructors.
- `Scenarios` (`scenarios.dfy`) holds concrete uses: a unit cube, a closed
  mesh, a mesh with one bad edge (3, 7), moving that record, changing the list
  through the returned reference, a record built from a null pointer, and a
  construction followed by a move with the single-owner guarantee carried
  through both steps.

Types the header takes from elsewhere are type parameters. `Cork::Math::BBox3D`
is `Box` and `Cork::Math::EdgeBase` is `Edge`. Both are used only for storage
and equality. `size_t` is the 64-bit range `SizeT`, and `double` is `real`.

## Model

| member | source | states |
|---|---|---|
| `Statistics.GeometricStatistics.constructor` | CorkLib/Statistics.h:48-62 | each of the seven stored values (the two counts, area, volume, the two edge lengths and the box) is exactly the constructor argument of the same name, and nothing is checked |
| `Scenarios.UnitCube` | CorkLib/Statistics.h:48-99 | a record built for a unit cube (8, 12, 6.0, 1.0, 1.0, 1.41421356, box) reads back each of those values and the same box |
| `Statistics.EdgeVectorPtr.Take` | CorkLib/Statistics.h:129 | moving into a `unique_ptr` gives it exactly what the source held and leaves the source null |
| `Statistics.TopologicalStatistics.constructor` | CorkLib/Statistics.h:124-130 | the edge and body counts are stored unchanged; the record's member pointer is fresh and holds the caller's list, with the same elements in the same order; the caller's pointer is null afterwards; a null pointer is accepted |
| `Statistics.TopologicalStatistics.Move` | CorkLib/Statistics.h:132-136 | the new record has the source's counts and the source's list object, unchanged; the source's pointer is null afterwards |
| `Statistics.TopologicalStatistics.IsTwoManifold` | CorkLib/Statistics.h:150-153 | true exactly when the owned list has no elements, judged on the list as it is at call time; needs a non-null owned pointer |
| `Statistics.TopologicalStatistics.NonTwoManifoldEdges` | CorkLib/Statistics.h:155-158 | returns the owned list object itself, by reference; it is empty exactly when `IsTwoManifold()` holds; needs a non-null owned pointer |
| `Statistics.ConstructKeepsSingleOwner` | CorkLib/Statistics.h:124-130 | for any collection of distinct pointers in which no list has two owners, the owning constructor keeps it so once the new record's pointer is added, and the multiset of owned lists is unchanged; the new record's pointer is fresh, so the enlarged collection is again distinct and the guarantee carries into the next construction or move |
| `Statistics.MoveKeepsSingleOwner` | CorkLib/Statistics.h:132-136 | the same single-owner, conservation and freshness guarantee for the move constructor |
| `Ownership.TakeKeepsSingleOwner` | CorkLib/Statistics.h:132-135 | a move keeps every list with at most one owner |
| `Ownership.TakeConservesOwned` | CorkLib/Statistics.h:132-135 | a move neither loses nor duplicates a list: the multiset of held lists is unchanged |
| `Ownership.TakeHandsOver` | CorkLib/Statistics.h:132-135 | after a list is moved, the new owner, and only the new owner, holds it; the source no longer does |
| `Ownership.Replay` | CorkLib/Statistics.h:124-136 | on the abstract ledger, a history of moves creates exactly one new slot per move |
| `Ownership.ReplayKeepsSingleOwner` | CorkLib/Statistics.h:124-136 | on the abstract ledger, any history of moves keeps every list with a single owner |
| `Ownership.ReplayConservesOwned` | CorkLib/Statistics.h:124-136 | on the abstract ledger, no history of moves loses or duplicates a list |
| `Scenarios.ClosedMesh` | CorkLib/Statistics.h:124-153 | a record built with counts 18 and 1 and an empty list reads back 18 and 1 and reports a two-manifold |
| `Scenarios.OneBadEdge` | CorkLib/Statistics.h:124-158 | with the single edge (3, 7) the record is not a two-manifold, exposes the caller's own list object holding exactly that edge, and the caller's pointer is null |
| `Scenarios.MoveOneBadEdge` | CorkLib/Statistics.h:132-158 | the record moved to keeps the counts, the same list object and the edge (3, 7); the moved-from record holds no list, so its list accessors cannot be called |
| `Scenarios.NotCached` | CorkLib/Statistics.h:150-158 | an edge appended through the reference from `NonTwoManifoldEdges()` turns `IsTwoManifold()` from true to false |
| `Scenarios.FromNullHandle` | CorkLib/Statistics.h:124-130 | construction from a null pointer succeeds and stores both counts (4 and 1), but the record's list accessors cannot be called |
| `Scenarios.ConstructThenMove` | CorkLib/Statistics.h:124-136 | on the heap, a construction followed by a move leaves the caller's pointer and the first record's pointer null and the second record holding the list, held exactly once and by one owner |

## Left out

- Aligned allocation of the bounding box (`make_aligned`, `aligned_unique_ptr`) is a memory-layout matter. The box is an owned `const` value whose type is declared `Box(!new)`, so it holds no heap references and nothing the caller keeps can change the record's copy.
- IEEE `double` behaviour (NaN, rounding) is not modelled. The values are only stored and returned, and `real` stands for them.
- `size_t` is the 64-bit range. Counts are never computed with, so no wrap-around can arise.
- Invariants the code does not check are not postconditions: minimum edge length at most maximum edge length, box corners ordered, non-negative area. The constructor stores whatever it is given, and the model does the same.
- The internals of `Cork::Math::BBox3D` and `Cork::Math::EdgeBase` are not modelled. `Math\Primitives.h` is not part of this model, so both are type parameters compared only by equality.
- Destruction is not modelled: release of the owned list and box, and the implicitly generated destructors and move operations of `GeometricStatistics`. Dafny has no deallocation. Concurrency and thread safety are left out too.
- Computing the statistics (area, volume, edge lengths, bodies and non-manifold edges) happens outside this header.
- Calling `IsTwoManifold()` or `NonTwoManifoldEdges()` on a null owned pointer is undefined behaviour in the source. Here it is a precondition, `owner.ptr != null`, and it is not modelled as a crash.
