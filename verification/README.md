# Shape completion for bevy_prototype_lyon, modelled in Dafny

This project models the part of the `bevy_prototype_lyon` plugin that turns a
spawned shape bundle into a renderable mesh (`src/plugin.rs`). It covers four
pieces:

- **Vertex construction.** A point from the fill or stroke tessellator becomes
  a mesh vertex. The position is `(x, y, 0)`, the normal is `(0, 0, 1)` and the
  uv is `(0, 0)`.
- **Engine dispatch.** An entity's `TessellationMode` picks the fill engine or
  the stroke engine. The engine gets the entity's own path and options and
  writes into fresh buffers through the vertex constructor.
- **Mesh assembly** (`build_mesh`). Builds a triangle list. The index array is
  copied verbatim. The vertices are split into position, normal and uv arrays,
  in vertex order.
- **The `complete_shape_bundle` system.** It skips entities already processed.
  Every other entity gets its new mesh appended to the asset store. Its mesh
  handle is set to the new mesh, and it is marked visible and processed.

Modules, one per component:

| file | module | contents |
|---|---|---|
| `wrappers.dfy` | `Wrappers` | `Option`, and `Outcome` for the `Ok`/`Err` status of an engine call |
| `sequences.dfy` | `Sequences` | `Map` (the model of `iter().map().collect()`) and `All` |
| `vertex.dfy` | `Vertices` | `Vertex`, the lyon fill and stroke vertex records, the two constructors |
| `mesh.dfy` | `Meshes` | `VertexBuffers`, the engine `Mesh` record, `BuildMesh` and the function that reads it back |
| `tessellation.dfy` | `Tessellation` | modes, engine outputs, the engine pair, dispatch (`CallFor`, `Run`) |
| `plugin.dfy` | `Plugin` | entities, the per-entity step, the whole pass as a function and as a loop, and the pass properties |

Modelling choices:

- **Engines.** The fill and stroke engines are functions of (path, options)
  held in a `Tessellators` value, and nothing is assumed about them. An engine
  call reports the vertices and indices it emitted, plus an `Outcome`. A
  failing call may already have emitted some geometry, and the model allows
  any such partial output.
- **Index validity.** That a successful call emits whole triangles with
  in-range indices is the geometry library's promise. It is stated as the
  predicate `KeepsPromise`, a hypothesis of the lemmas that use it. It is
  never proved.
- **Asset store and handles.** The mesh store is an append-only `seq<Mesh>`.
  The handle returned by `Assets::add` is the index where the mesh was
  appended. Entities start from any handle, including `DefaultHandle`.
- **Call log.** A pass also returns the list of engine calls it made, as an
  instrumented engine would record them. Routing and "no engine call for a
  processed entity" are stated about that list.
- **Opaque types.** `Path`, `FillOptions`, `StrokeOptions` and
  `TessellationError` are abstract types. This system only passes them
  through.

## Behaviour on tessellation failure

Both `Err` branches (src/plugin.rs:120-126 and 129-135) only log the error.
Lines 139-141 then run anyway. So an entity whose tessellation failed still
gets a mesh, built from whatever the buffers hold, and is marked visible and
processed. It is never retried.

Retrying would need the entity left unprocessed, and the code does not do
that. The model follows the code. `CompleteShape` and
`CompleteShapeBundleEntity` put no condition on the call's status.

## Model

| member | source | states |
|---|---|---|
| `Vertices.NewFillVertex` | src/plugin.rs:57-65 | The vertex built from a fill point is flat (z = 0, normal (0, 0, 1), uv (0, 0)) and stands for exactly that point |
| `Vertices.NewStrokeVertex` | src/plugin.rs:68-76 | The vertex built from a stroke point is flat and stands for exactly that point; the stroke vertex's other data is ignored |
| `Vertices.FillStrokeAgree` | src/plugin.rs:57-76 | A fill vertex and a stroke vertex at the same point give identical vertices |
| `Vertices.FlatIffConstructed` | src/plugin.rs:57-76 | A vertex is flat if and only if constructing from its own point gives it back, for both constructors: the constructors' image is exactly the flat vertices |
| `Meshes.BuildMesh` | src/plugin.rs:145-174 | Triangle-list topology; the index array equals the buffers' indices; exactly the position, normal and uv attributes, each as long as the vertex sequence, with entry i the matching field of vertex i; total, including for empty buffers |
| `Meshes.BuildMeshRoundTrip` | src/plugin.rs:145-174 | Reading the buffers back out of the assembled mesh gives the original buffers: assembly loses nothing and keeps vertex order |
| `Meshes.BuildMeshOnto` | src/plugin.rs:145-174 | A triangle-list mesh with exactly the three attributes that reads back to some buffers is the assembly of those buffers |
| `Meshes.BuildMeshKeepsValidity` | src/plugin.rs:147-155 | The mesh's index array is a valid triangle list over its positions exactly when the buffers' indices were valid over their vertices |
| `Meshes.BuildMeshFlat` | src/plugin.rs:148-171 | The mesh's positions all have z = 0, its normals are all (0, 0, 1) and its uvs all (0, 0), exactly when every buffer vertex is flat |
| `Tessellation.CallFor` | src/plugin.rs:118-137 | A `Fill` mode yields a fill-engine call and a `Stroke` mode a stroke-engine call, each with the entity's own path and its own options |
| `Tessellation.Collect` | src/plugin.rs:116-123 | The buffers builder over fresh buffers: vertex i of the buffers is the constructor applied to emitted vertex i, and the indices are the emitted indices |
| `Tessellation.Run` | src/plugin.rs:116-137 | Only the named engine is applied. The buffers hold exactly its emitted vertices, each made by that engine's vertex constructor, and exactly its emitted indices, whether or not it succeeded. The call's status is that engine's status. Every buffer vertex is flat. If the engines keep their promise and the call succeeded, the buffers are a valid triangle list |
| `Tessellation.RoutingIgnoresOtherEngine` | src/plugin.rs:118-137 | What a fill-mode entity yields depends on the fill engine alone, and a stroke-mode entity on the stroke engine alone |
| `Plugin.AddMesh` | src/plugin.rs:139 | Adding a mesh keeps the store as a prefix, grows it by one, and returns the handle of the slot holding exactly the added mesh |
| `Plugin.Completed` | src/plugin.rs:139-141 | Completion sets the handle, sets visible and processed, and leaves mode, path and the transparency flag unchanged |
| `Plugin.CompleteShape` | src/plugin.rs:111-142 | A processed entity is skipped: no call, no mesh, nothing changes. Otherwise one call is made for the entity's mode, one mesh built from that call's buffers is appended, and the entity is completed with the new handle, whatever the call's status |
| `Plugin.CompleteShapeBundle` | src/plugin.rs:99-143 | A pass keeps the entity count, keeps the old store as a prefix, and grows the store by exactly the number of pending entities |
| `Plugin.PendingMembers` | src/plugin.rs:112-114 | The entities a pass works on are exactly the unprocessed ones |
| `Plugin.CompleteShapeBundleEntity` | src/plugin.rs:111-142 | Per entity: a processed one comes out unchanged. A pending one comes out completed, its handle pointing into the newly appended part of the store at the mesh built from its own engine call, on success or failure |
| `Plugin.AllProcessedAfter` | src/plugin.rs:141 | After a pass every entity is processed |
| `Plugin.CompleteShapeBundleCalls` | src/plugin.rs:112-137 | The engine calls of a pass are exactly one per pending entity, in query order, each the call its mode selects; processed entities cause none |
| `Plugin.HandlesDistinct` | src/plugin.rs:116-139 | The store slot assigned to a pending entity is strictly below the slot of every later entity in query order, so slots are never reused |
| `Plugin.PendingMeshesDistinct` | src/plugin.rs:111-141 | After a pass, two pending entities hold different mesh handles |
| `Plugin.NoopWhenAllProcessed` | src/plugin.rs:111-114 | When every entity is processed, a pass changes neither store nor entities and makes no call |
| `Plugin.CompleteShapeBundleIdempotent` | src/plugin.rs:111-142 | A second pass without reset gives the same store and entities as the first and makes no engine call |
| `Plugin.AppendedMeshFlat` | src/plugin.rs:57-76 | Every mesh a pass appends has z = 0 positions, (0, 0, 1) normals and (0, 0) uvs |
| `Plugin.SucceededMeshesValid` | src/plugin.rs:118-139 | If the engines keep their promise and a pending entity's call succeeded, its handle points at a mesh whose indices form a valid triangle list |
| `Plugin.CompleteShapeBundleLoop` | src/plugin.rs:111-142 | The `for` loop over the query, completing entities in place, computes exactly the pass |

## Left out

- `ShapePlugin::build` (src/plugin.rs:83-94) is left out. It creates the two
  engine resources and registers the system in a new stage after `UPDATE`.
  This is host scheduler wiring with no logic of its own.
- The `error!` calls (src/plugin.rs:125, 134) are left out. They are
  diagnostics only and change no state.
- The lyon fill and stroke triangulation is left out. Each engine is a
  function of (path, options) that the model knows nothing about. The
  engines' internal scratch state is not modelled, because it does not carry
  geometry from one call to the next.
- That successful output has valid indices is assumed (`KeepsPromise`), not
  proved. It is the geometry library's promise, and this code never checks it.
- Nothing is assumed about what a failing engine emits. Whether lyon rolls
  back partial output on error is library behaviour, not part of this model.
- `f32` coordinates are modelled as `real`. They are only copied, never
  computed on, so rounding does not arise.
- Bevy's `Assets<Mesh>`, its `Handle` representation and `Query` iteration are
  simplified. The store is an append-only sequence, a handle is an index into
  it, and the query is a sequence of entity records in iteration order.
- Bevy's `Mesh` is reduced to what this code touches: the topology, the
  attributes keyed by name, and the optional `U16`/`U32` index array. Only the
  `Float2`/`Float3` attribute shapes that `build_mesh` uses are modelled.
- Parallel stage execution and the exclusive `ResMut` borrows of the engines
  and the store are left out. They are about concurrency, and a single pass is
  sequential over the query.
- lyon's `FillVertex` keeps only its position, and `StrokeVertex` keeps its
  position, normal and advancement. The vertex constructor reads only the
  position.
