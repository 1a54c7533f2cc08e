/** The enumerator of a component collection
    (`ComponentCollection.Enumerator.cs`): an index cursor over the
    collection's live component list, plus the collection's count of active
    enumerators. The write lock around the counter is not modelled. */
module ComponentCollections {
  import opened Errors

  /** What `MoveNext` decides: whether it moved, and the new index. */
  datatype Step = Step(moved: bool, index: int)

  function MoveNextStep(index: int, count: nat): (r: Step)
    ensures r.moved <==> index < count - 1
    ensures r.moved ==> r.index == index + 1
    ensures !r.moved ==> r.index == index
  {
    if index < count - 1 then Step(true, index + 1) else Step(false, index)
  }

  /** The `Current` getter. */
  function CurrentAt<T>(index: int, components: seq<T>): (r: Result<T>)
    ensures r.Ok? <==> 0 <= index < |components|
    ensures r.Ok? ==> r.value == components[index]
    ensures r.Err? ==> r.error == ArgumentOutOfRangeException
  {
    if index < 0 || |components| <= index then Err(ArgumentOutOfRangeException) else Ok(components[index])
  }

  /** What a loop that alternates `MoveNext` and `Current` sees, from a
      cursor at `index`, while the collection does not change. */
  function Drain<T>(index: int, components: seq<T>): seq<T>
    requires -1 <= index
    decreases |components| - index
  {
    var step := MoveNextStep(index, |components|);
    if !step.moved then []
    else [CurrentAt(step.index, components).value] + Drain(step.index, components)
  }

  /** Such a loop sees every component after the cursor exactly once, in
      index order; from a fresh or reset cursor, the whole collection. */
  lemma {:induction false} DrainYieldsRest<T>(index: int, components: seq<T>)
    requires -1 <= index
    ensures index < |components| ==> Drain(index, components) == components[index + 1..]
    ensures index >= |components| ==> Drain(index, components) == []
    ensures index == -1 ==> Drain(index, components) == components
    decreases |components| - index
  {
    if index < |components| - 1 {
      DrainYieldsRest(index + 1, components);
    }
  }

  class ComponentCollection<T> {
    /** `_components` */
    var components: seq<T>
    /** `_activeEnumeratorCount` */
    var activeEnumeratorCount: int

    constructor (components: seq<T>)
      ensures this.components == components && activeEnumeratorCount == 0
    {
      this.components := components;
      activeEnumeratorCount := 0;
    }
  }

  class Enumerator<T> {
    /** `_index` */
    var index: int
    /** `_collection` */
    const collection: ComponentCollection<T>

    /** Registers one more active enumerator on the collection. */
    constructor (collection: ComponentCollection<T>)
      modifies collection
      ensures this.collection == collection && index == -1
      ensures collection.activeEnumeratorCount == old(collection.activeEnumeratorCount) + 1
      ensures collection.components == old(collection.components)
    {
      this.collection := collection;
      index := -1;
      new;
      collection.activeEnumeratorCount := collection.activeEnumeratorCount + 1;
    }

    /** Unregisters one enumerator, with no guard: disposing twice counts twice. */
    method Dispose()
      modifies collection
      ensures collection.activeEnumeratorCount == old(collection.activeEnumeratorCount) - 1
      ensures collection.components == old(collection.components)
    {
      collection.activeEnumeratorCount := collection.activeEnumeratorCount - 1;
    }

    method MoveNext() returns (moved: bool)
      modifies this
      ensures Step(moved, index) == MoveNextStep(old(index), |collection.components|)
    {
      var canMove := index < |collection.components| - 1;
      if canMove {
        index := index + 1;
      }
      moved := canMove;
    }

    method Reset()
      modifies this
      ensures index == -1
    {
      index := -1;
    }

    method Current() returns (r: Result<T>)
      ensures r == CurrentAt(index, collection.components)
    {
      r := CurrentAt(index, collection.components);
    }
  }
}
