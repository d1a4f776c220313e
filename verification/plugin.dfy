/** The system that completes shape bundles (`complete_shape_bundle` in
    src/plugin.rs): every entity not yet processed has its path tessellated
    by the engine its mode selects, gets a mesh built from the resulting
    buffers, and is marked visible and processed.

    The mesh asset store is an append-only sequence; the handle `Assets::add`
    returns is the index at which the mesh was appended. */
module Plugin {
  import opened Sequences
  import opened Meshes
  import opened Tessellation

  datatype MeshHandle = DefaultHandle | MeshAt(index: nat)

  /** Draw visibility of an entity. */
  datatype Visible = Visible(isVisible: bool, isTransparent: bool)

  /** Whether the entity already has its mesh. */
  datatype Processed = Processed(done: bool)

  /** The components the system queries. Mode and path are only read. */
  datatype ShapeEntity = ShapeEntity(
    mode: TessellationMode,
    path: Path,
    mesh: MeshHandle,
    visible: Visible,
    processed: Processed)

  /** The store after one entity, the entity after it, and the engine calls
      made for it. */
  datatype EntityStep = EntityStep(store: seq<Mesh>, entity: ShapeEntity, calls: seq<TessCall>)

  /** The store after a whole pass, the entities in query order, and the
      engine calls made, in order. */
  datatype Pass = Pass(store: seq<Mesh>, entities: seq<ShapeEntity>, calls: seq<TessCall>)

  /** `Assets::add`: appends the mesh and returns the handle to it. */
  function AddMesh(store: seq<Mesh>, m: Mesh): (r: (seq<Mesh>, MeshHandle))
    ensures |r.0| == |store| + 1 && r.0[..|store|] == store
    ensures r.1.MeshAt? && r.1.index == |store| && r.0[r.1.index] == m
  {
    (store + [m], MeshAt(|store|))
  }

  /** The engine call made for an entity. */
  function CallOf(e: ShapeEntity): TessCall {
    CallFor(e.path, e.mode)
  }

  /** The mesh an entity receives: assembled from the buffers its own engine
      call leaves behind, starting from empty buffers, whatever the call's
      status. */
  function MeshFor(t: Tessellators, e: ShapeEntity): Mesh {
    BuildMesh(Run(t, CallOf(e)).buffers)
  }

  /** An entity once completed with handle `h`: only the handle, the
      visibility flag and the processed flag differ. */
  function Completed(e: ShapeEntity, h: nat): (c: ShapeEntity)
    ensures c.mode == e.mode && c.path == e.path && c.visible.isTransparent == e.visible.isTransparent
    ensures c.mesh == MeshAt(h) && c.visible.isVisible && c.processed.done
  {
    e.(mesh := MeshAt(h), visible := e.visible.(isVisible := true), processed := Processed(true))
  }

  /** One iteration of the system's loop. A processed entity is skipped:
      nothing is called, nothing is added, nothing changes. Otherwise exactly
      one engine call is made, for the entity's own path and options; its
      mesh is appended to the store and the entity's handle points at it;
      the entity becomes visible and processed even when the call failed. */
  function CompleteShape(t: Tessellators, store: seq<Mesh>, e: ShapeEntity): (r: EntityStep)
    ensures e.processed.done ==> r == EntityStep(store, e, [])
    ensures !e.processed.done ==>
              && r.calls == [CallOf(e)]
              && |r.store| == |store| + 1 && r.store[..|store|] == store
              && r.store[|store|] == MeshFor(t, e)
              && r.entity == Completed(e, |store|)
  {
    if e.processed.done then
      EntityStep(store, e, [])
    else
      var call := CallOf(e);
      var buffers := Run(t, call).buffers;
      var (store', handle) := AddMesh(store, BuildMesh(buffers));
      EntityStep(
        store',
        e.(mesh := handle, visible := e.visible.(isVisible := true), processed := Processed(true)),
        [call])
  }

  /** The entities still to be processed, in query order. */
  function Pending(es: seq<ShapeEntity>): (r: seq<ShapeEntity>)
    ensures |r| <= |es|
    decreases |es|
  {
    if es == [] then []
    else
      var before := Pending(es[..|es| - 1]);
      if es[|es| - 1].processed.done then before else before + [es[|es| - 1]]
  }

  /** The pending entities are exactly the unprocessed ones. */
  lemma {:induction false} PendingMembers(es: seq<ShapeEntity>)
    ensures forall e :: e in Pending(es) <==> e in es && !e.processed.done
    decreases |es|
  {
    if es != [] {
      PendingMembers(es[..|es| - 1]);
      assert es == es[..|es| - 1] + [es[|es| - 1]];
    }
  }

  /** One pass of the system over the queried entities, in query order:
      the entities before the last one, then the last one, starting from
      the store the earlier ones left behind. */
  function CompleteShapeBundle(t: Tessellators, store: seq<Mesh>, es: seq<ShapeEntity>): (r: Pass)
    ensures |r.entities| == |es|
    ensures |r.store| == |store| + |Pending(es)|
    ensures r.store[..|store|] == store
    decreases |es|
  {
    if es == [] then Pass(store, [], [])
    else
      var before := CompleteShapeBundle(t, store, es[..|es| - 1]);
      var last := CompleteShape(t, before.store, es[|es| - 1]);
      assert last.store[..|store|] == before.store[..|store|];
      Pass(last.store, before.entities + [last.entity], before.calls + last.calls)
  }

  /** The handle the `i`-th entity receives if it is pending: the store
      length plus the number of pending entities before it. */
  function HandleFor(store: seq<Mesh>, es: seq<ShapeEntity>, i: nat): nat
    requires i <= |es|
  {
    |store| + |Pending(es[..i])|
  }

  /** What a pass `r` from `store` did to the `i`-th entity. An entity
      already processed comes out exactly as it went in. A pending entity
      comes out completed, its handle pointing at a mesh appended during the
      pass that was built from its own engine call alone. */
  predicate EntityOutcome(t: Tessellators, store: seq<Mesh>, es: seq<ShapeEntity>, i: nat, r: Pass)
    requires i < |es| && i < |r.entities|
  {
    if es[i].processed.done then r.entities[i] == es[i]
    else
      && |store| <= HandleFor(store, es, i) < |r.store|
      && r.entities[i] == Completed(es[i], HandleFor(store, es, i))
      && r.store[HandleFor(store, es, i)] == MeshFor(t, es[i])
  }

  /** Per-entity outcome of a pass, whatever each engine call's status. */
  lemma {:induction false} CompleteShapeBundleEntity(t: Tessellators, store: seq<Mesh>, es: seq<ShapeEntity>, i: nat)
    requires i < |es|
    ensures EntityOutcome(t, store, es, i, CompleteShapeBundle(t, store, es))
    decreases |es|
  {
    var n := |es| - 1;
    if i == n {
      LastEntityOutcome(t, store, es);
    } else {
      var before := CompleteShapeBundle(t, store, es[..n]);
      var r := CompleteShapeBundle(t, store, es);
      CompleteShapeBundleEntity(t, store, es[..n], i);
      assert r.entities == before.entities + [CompleteShape(t, before.store, es[n]).entity];
      EarlierEntityOutcome(t, store, es, i, before, r);
    }
  }

  lemma LastEntityOutcome(t: Tessellators, store: seq<Mesh>, es: seq<ShapeEntity>)
    requires es != []
    ensures EntityOutcome(t, store, es, |es| - 1, CompleteShapeBundle(t, store, es))
  {
    var n := |es| - 1;
    var before := CompleteShapeBundle(t, store, es[..n]);
    var last := CompleteShape(t, before.store, es[n]);
    var r := CompleteShapeBundle(t, store, es);
    assert r.entities[n] == last.entity;
    assert HandleFor(store, es, n) == |before.store|;
  }

  /** An entity before the last keeps the outcome it had in the shorter
      pass: the last entity only appends to the store. */
  lemma EarlierEntityOutcome(t: Tessellators, store: seq<Mesh>, es: seq<ShapeEntity>, i: nat, before: Pass, r: Pass)
    requires i < |es| - 1 && |before.entities| == |es| - 1 && |r.entities| == |es|
    requires EntityOutcome(t, store, es[..|es| - 1], i, before)
    requires r.entities[i] == before.entities[i]
    requires |before.store| <= |r.store| && r.store[..|before.store|] == before.store
    ensures EntityOutcome(t, store, es, i, r)
  {
    var n := |es| - 1;
    assert es[..n][i] == es[i];
    if !es[i].processed.done {
      var h := HandleFor(store, es[..n], i);
      assert h == HandleFor(store, es, i) by {
        assert es[..n][..i] == es[..i];
      }
      assert r.store[h] == before.store[h];
    }
  }

  /** Every entity is processed after a pass. */
  lemma {:induction false} AllProcessedAfter(t: Tessellators, store: seq<Mesh>, es: seq<ShapeEntity>)
    ensures forall i :: 0 <= i < |es| ==> CompleteShapeBundle(t, store, es).entities[i].processed.done
  {
    forall i | 0 <= i < |es|
      ensures CompleteShapeBundle(t, store, es).entities[i].processed.done
    {
      CompleteShapeBundleEntity(t, store, es, i);
    }
  }

  /** A pass makes exactly one engine call per pending entity, in query
      order, and that call is the one its mode selects with its own path and
      options; a processed entity causes no call. */
  lemma {:induction false} CompleteShapeBundleCalls(t: Tessellators, store: seq<Mesh>, es: seq<ShapeEntity>)
    ensures CompleteShapeBundle(t, store, es).calls == Map(CallOf, Pending(es))
    decreases |es|
  {
    if es != [] {
      var n := |es| - 1;
      var before := CompleteShapeBundle(t, store, es[..n]);
      var last := CompleteShape(t, before.store, es[n]);
      CompleteShapeBundleCalls(t, store, es[..n]);
      assert CompleteShapeBundle(t, store, es).calls == before.calls + last.calls;
      CallsExtend(Pending(es[..n]), es[n], before.calls, last.calls);
    }
  }

  lemma CallsExtend(p: seq<ShapeEntity>, e: ShapeEntity, before: seq<TessCall>, last: seq<TessCall>)
    requires before == Map(CallOf, p)
    requires last == if e.processed.done then [] else [CallOf(e)]
    ensures before + last == Map(CallOf, if e.processed.done then p else p + [e])
  {
    if e.processed.done {
      assert before + [] == before;
    }
  }

  lemma PendingExtend(es: seq<ShapeEntity>, i: nat)
    requires i < |es|
    ensures |Pending(es[..i + 1])| == |Pending(es[..i])| + (if es[i].processed.done then 0 else 1)
  {
    assert es[..i + 1][..i] == es[..i];
  }

  lemma {:induction false} PendingPrefixGrows(es: seq<ShapeEntity>, i: nat, j: nat)
    requires i <= j <= |es|
    ensures |Pending(es[..i])| <= |Pending(es[..j])|
    decreases j - i
  {
    if i < j {
      PendingExtend(es, i);
      PendingPrefixGrows(es, i + 1, j);
    }
  }

  /** Distinct pending entities get distinct handles: no mesh is shared and
      nothing of one entity's mesh carries over to another's. */
  lemma HandlesDistinct(store: seq<Mesh>, es: seq<ShapeEntity>, i: nat, j: nat)
    requires i < j < |es|
    requires !es[i].processed.done
    ensures HandleFor(store, es, i) < HandleFor(store, es, j)
  {
    PendingExtend(es, i);
    PendingPrefixGrows(es, i + 1, j);
  }

  /** The same fact stated over the pass itself: two pending entities end up
      with different mesh handles. */
  lemma PendingMeshesDistinct(t: Tessellators, store: seq<Mesh>, es: seq<ShapeEntity>, i: nat, j: nat)
    requires i < j < |es|
    requires !es[i].processed.done && !es[j].processed.done
    ensures CompleteShapeBundle(t, store, es).entities[i].mesh != CompleteShapeBundle(t, store, es).entities[j].mesh
  {
    CompleteShapeBundleEntity(t, store, es, i);
    CompleteShapeBundleEntity(t, store, es, j);
    HandlesDistinct(store, es, i, j);
  }

  /** Once every entity is processed, a pass changes nothing and calls
      nothing. */
  lemma {:induction false} NoopWhenAllProcessed(t: Tessellators, store: seq<Mesh>, es: seq<ShapeEntity>)
    requires forall i :: 0 <= i < |es| ==> es[i].processed.done
    ensures CompleteShapeBundle(t, store, es) == Pass(store, es, [])
    decreases |es|
  {
    if es != [] {
      var n := |es| - 1;
      NoopWhenAllProcessed(t, store, es[..n]);
      assert es[..n] + [es[n]] == es;
    }
  }

  /** Running the system twice without resetting any flag gives the same
      store and entities as running it once, and the second pass makes no
      engine call: each entity is tessellated at most once. */
  lemma {:induction false} CompleteShapeBundleIdempotent(t: Tessellators, store: seq<Mesh>, es: seq<ShapeEntity>)
    ensures var once := CompleteShapeBundle(t, store, es);
      CompleteShapeBundle(t, once.store, once.entities) == Pass(once.store, once.entities, [])
  {
    var once := CompleteShapeBundle(t, store, es);
    AllProcessedAfter(t, store, es);
    NoopWhenAllProcessed(t, once.store, once.entities);
  }

  /** Every mesh a pass appends is flat: positions in z = 0, normals
      (0, 0, 1), uv (0, 0). */
  lemma {:induction false} AppendedMeshFlat(t: Tessellators, store: seq<Mesh>, es: seq<ShapeEntity>, k: nat)
    requires |store| <= k < |CompleteShapeBundle(t, store, es).store|
    ensures FlatMesh(CompleteShapeBundle(t, store, es).store[k])
    decreases |es|
  {
    var n := |es| - 1;
    var before := CompleteShapeBundle(t, store, es[..n]);
    var last := CompleteShape(t, before.store, es[n]);
    if k < |before.store| {
      AppendedMeshFlat(t, store, es[..n], k);
      assert last.store[..|before.store|] == before.store;
      assert last.store[k] == before.store[k];
    } else {
      BuildMeshFlat(Run(t, CallOf(es[n])).buffers);
    }
  }

  /** When the engines keep their promise, a pending entity whose engine
      call succeeded ends up with a valid triangle-list mesh. Nothing is
      promised for a failed call. */
  lemma SucceededMeshesValid(t: Tessellators, store: seq<Mesh>, es: seq<ShapeEntity>, i: nat)
    requires KeepsPromise(t)
    requires i < |es| && !es[i].processed.done
    requires Run(t, CallOf(es[i])).status.Pass?
    ensures var r := CompleteShapeBundle(t, store, es);
      var h := HandleFor(store, es, i);
      && r.entities[i].mesh == MeshAt(h)
      && h < |r.store| && ValidMesh(r.store[h])
  {
    CompleteShapeBundleEntity(t, store, es, i);
    assert EntityOutcome(t, store, es, i, CompleteShapeBundle(t, store, es));
    BuildMeshKeepsValidity(Run(t, CallOf(es[i])).buffers);
  }

  /** One iteration of the loop, on the ghost side: completing the `i`-th
      entity in place extends the pass over the first `i` entities to the
      pass over the first `i + 1`. */
  lemma LoopStep(t: Tessellators, meshes: seq<Mesh>, query: seq<ShapeEntity>,
                 store: seq<Mesh>, es: seq<ShapeEntity>, calls: seq<TessCall>, i: nat)
    requires i < |es| == |query| && es[i..] == query[i..]
    requires Pass(store, es[..i], calls) == CompleteShapeBundle(t, meshes, query[..i])
    ensures var last := CompleteShape(t, store, es[i]);
      && es[i := last.entity][i + 1..] == query[i + 1..]
      && Pass(last.store, es[i := last.entity][..i + 1], calls + last.calls)
         == CompleteShapeBundle(t, meshes, query[..i + 1])
  {
    var last := CompleteShape(t, store, es[i]);
    assert es[i] == query[i];
    assert query[..i + 1][..i] == query[..i] && query[..i + 1][i] == query[i];
    assert CompleteShapeBundle(t, meshes, query[..i + 1])
        == Pass(last.store, es[..i] + [last.entity], calls + last.calls);
    UpdateInPlace(es, i, last.entity);
  }

  lemma UpdateInPlace<T>(s: seq<T>, i: nat, x: T)
    requires i < |s|
    ensures s[i := x][..i + 1] == s[..i] + [x]
    ensures s[i := x][i + 1..] == s[i + 1..]
  {
  }

  /** The loop body for one entity, as statements: it performs the step
      `CompleteShape` defines. */
  method CompleteEntity(t: Tessellators, store: seq<Mesh>, e: ShapeEntity)
    returns (store': seq<Mesh>, e': ShapeEntity, calls: seq<TessCall>)
    ensures EntityStep(store', e', calls) == CompleteShape(t, store, e)
  {
    if e.processed.done {
      return store, e, [];
    }
    var call := CallFor(e.path, e.mode);
    var buffers := Run(t, call).buffers;
    var added := AddMesh(store, BuildMesh(buffers));
    store' := added.0;
    e' := e.(mesh := added.1, visible := e.visible.(isVisible := true), processed := Processed(true));
    calls := [call];
  }

  /** The system's loop as written: iterate the entities in query order and
      complete each in place. It computes exactly the pass defined above. */
  method CompleteShapeBundleLoop(t: Tessellators, meshes: seq<Mesh>, query: seq<ShapeEntity>)
    returns (store: seq<Mesh>, es: seq<ShapeEntity>, calls: seq<TessCall>)
    ensures Pass(store, es, calls) == CompleteShapeBundle(t, meshes, query)
  {
    store, es, calls := meshes, query, [];
    var i := 0;
    while i < |es|
      invariant 0 <= i <= |es| == |query|
      invariant es[i..] == query[i..]
      invariant Pass(store, es[..i], calls) == CompleteShapeBundle(t, meshes, query[..i])
    {
      LoopStep(t, meshes, query, store, es, calls, i);
      var e', calls';
      store, e', calls' := CompleteEntity(t, store, es[i]);
      es := es[i := e'];
      calls := calls + calls';
      i := i + 1;
    }
    assert query[..i] == query;
    assert es[..i] == es;
  }
}
