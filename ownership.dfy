/** An abstract ledger of exclusive ownership.

    Every `std::unique_ptr` in a program is a slot that holds at most one
    resource. Both constructors of `TopologicalStatistics` move out of an
    existing slot into a newly created one; `Take` is that step. The lemmas
    below state the single-owner discipline the move is there to keep: no
    resource is held by two slots, and no resource is lost or duplicated,
    however many transfers happen.
 */
module Ownership {

  datatype Option<T> = None | Some(value: T)

  /** Slot `i` hands what it holds to a new slot appended at the end and is left empty. */
  function Take<T>(slots: seq<Option<T>>, i: nat): seq<Option<T>>
    requires i < |slots|
  {
    slots[i := None] + [slots[i]]
  }

  /** No resource is held by two different slots. */
  predicate SingleOwner<T(==)>(slots: seq<Option<T>>)
  {
    forall j, k :: 0 <= j < k < |slots| && slots[j].Some? ==> slots[j] != slots[k]
  }

  /** What one slot holds, as a multiset. */
  function Held<T>(o: Option<T>): multiset<T>
  {
    match o
    case None => multiset{}
    case Some(x) => multiset{x}
  }

  /** Everything the slots hold, counted with multiplicity. */
  function Owned<T>(slots: seq<Option<T>>): multiset<T>
  {
    if slots == [] then multiset{} else Held(slots[0]) + Owned(slots[1..])
  }

  lemma {:induction false} OwnedConcat<T>(a: seq<Option<T>>, b: seq<Option<T>>)
    ensures Owned(a + b) == Owned(a) + Owned(b)
  {
    if a != [] {
      assert (a + b)[1..] == a[1..] + b;
      OwnedConcat(a[1..], b);
    } else {
      assert a + b == b;
    }
  }

  lemma {:induction false} OwnedClear<T>(slots: seq<Option<T>>, i: nat)
    requires i < |slots|
    ensures Owned(slots[i := None]) + Held(slots[i]) == Owned(slots)
  {
    if i > 0 {
      assert slots[i := None][1..] == slots[1..][i - 1 := None];
      OwnedClear(slots[1..], i - 1);
    } else {
      assert slots[i := None][1..] == slots[1..];
    }
  }

  /** A transfer neither loses nor duplicates a resource. */
  lemma TakeConservesOwned<T>(slots: seq<Option<T>>, i: nat)
    requires i < |slots|
    ensures Owned(Take(slots, i)) == Owned(slots)
  {
    OwnedConcat(slots[i := None], [slots[i]]);
    assert [slots[i]][1..] == [];
    OwnedClear(slots, i);
  }

  /** A transfer keeps every resource with a single owner. */
  lemma TakeKeepsSingleOwner<T>(slots: seq<Option<T>>, i: nat)
    requires i < |slots|
    requires SingleOwner(slots)
    ensures SingleOwner(Take(slots, i))
  {
  }

  /** After a transfer of a held resource, the new slot and only the new slot holds it;
      in particular the source slot no longer does. */
  lemma TakeHandsOver<T>(slots: seq<Option<T>>, i: nat)
    requires i < |slots|
    requires SingleOwner(slots)
    requires slots[i].Some?
    ensures forall j :: 0 <= j < |Take(slots, i)| ==> (Take(slots, i)[j] == slots[i] <==> j == |slots|)
  {
  }

  /** `moves[k]` names a slot that exists when the k-th transfer happens. */
  predicate ValidMoves(size: nat, moves: seq<nat>)
  {
    forall k :: 0 <= k < |moves| ==> moves[k] < size + k
  }

  /** A history of transfers, applied in order; each one creates a slot. */
  function Replay<T>(slots: seq<Option<T>>, moves: seq<nat>): (r: seq<Option<T>>)
    requires ValidMoves(|slots|, moves)
    ensures |r| == |slots| + |moves|
    decreases |moves|
  {
    if moves == [] then slots
    else
      assert forall k :: 0 <= k < |moves| - 1 ==> moves[1..][k] == moves[k + 1];
      Replay(Take(slots, moves[0]), moves[1..])
  }

  /** Single ownership survives any history of transfers. */
  lemma {:induction false} ReplayKeepsSingleOwner<T>(slots: seq<Option<T>>, moves: seq<nat>)
    requires ValidMoves(|slots|, moves)
    requires SingleOwner(slots)
    ensures SingleOwner(Replay(slots, moves))
    decreases |moves|
  {
    if moves != [] {
      assert forall k :: 0 <= k < |moves| - 1 ==> moves[1..][k] == moves[k + 1];
      TakeKeepsSingleOwner(slots, moves[0]);
      ReplayKeepsSingleOwner(Take(slots, moves[0]), moves[1..]);
    }
  }

  /** No history of transfers loses or duplicates a resource. */
  lemma {:induction false} ReplayConservesOwned<T>(slots: seq<Option<T>>, moves: seq<nat>)
    requires ValidMoves(|slots|, moves)
    ensures Owned(Replay(slots, moves)) == Owned(slots)
    decreases |moves|
  {
    if moves != [] {
      assert forall k :: 0 <= k < |moves| - 1 ==> moves[1..][k] == moves[k + 1];
      TakeConservesOwned(slots, moves[0]);
      ReplayConservesOwned(Take(slots, moves[0]), moves[1..]);
    }
  }
}
