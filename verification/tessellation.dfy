/** The two tessellation engines as this system drives them: the path and
    the mode-specific options go in, the engine emits vertices and triangle
    indices through a buffers builder that applies the vertex constructor.

    The triangulation itself belongs to the geometry library: each engine is
    an uninterpreted function of (path, options). Its internal scratch state
    never leaks geometry from one call into the next, so a pure function is
    a faithful stand-in. */
module Tessellation {
  import opened Wrappers
  import opened Sequences
  import opened Vertices
  import opened Meshes

  /** The vector path, built outside this system and only passed through. */
  type Path(!new)

  /** Style parameters (tolerance, fill rule; line width, joins, caps, ...)
      handed to the library unmodified. */
  type FillOptions(!new)
  type StrokeOptions(!new)

  /** The library's error value; this system only reports it. */
  type TessellationError

  /** How an entity's path is to be drawn. */
  datatype TessellationMode = Fill(fillOptions: FillOptions) | Stroke(strokeOptions: StrokeOptions)

  /** What one engine call emits: the vertices it reported, in order, the
      triangle indices referring to them (counted from the call's first
      vertex), and whether the call succeeded. A failing call may have
      emitted part of its geometry before failing; nothing here says what. */
  datatype TessOutput<V> = TessOutput(vertices: seq<V>, indices: seq<u32>, status: Outcome<TessellationError>)

  /** The fill engine and the stroke engine. */
  datatype Tessellators = Tessellators(
    fill: (Path, FillOptions) -> TessOutput<FillVertex>,
    stroke: (Path, StrokeOptions) -> TessOutput<StrokeVertex>)

  /** One engine invocation, as an instrumented engine would log it. */
  datatype TessCall =
    | FillCall(path: Path, fillOptions: FillOptions)
    | StrokeCall(path: Path, strokeOptions: StrokeOptions)

  /** The buffers one call leaves behind, and its status. */
  datatype Tessellated = Tessellated(buffers: VertexBuffers, status: Outcome<TessellationError>)

  /** The library's promise about a successful call: whole triangles whose
      indices all refer to emitted vertices. This system does not check it;
      it is an assumption about the engines. */
  predicate ValidOutput<V>(out: TessOutput<V>) {
    ValidTriangleList(|out.vertices|, out.indices)
  }

  ghost predicate KeepsPromise(t: Tessellators) {
    && (forall p, o :: t.fill(p, o).status.Pass? ==> ValidOutput(t.fill(p, o)))
    && (forall p, o :: t.stroke(p, o).status.Pass? ==> ValidOutput(t.stroke(p, o)))
  }

  /** The engine call a mode selects: fill options go to the fill engine,
      stroke options to the stroke engine, each with the entity's own path. */
  function CallFor(path: Path, mode: TessellationMode): (c: TessCall)
    ensures c.path == path
    ensures c.FillCall? <==> mode.Fill?
    ensures c.FillCall? ==> c.fillOptions == mode.fillOptions
    ensures c.StrokeCall? ==> c.strokeOptions == mode.strokeOptions
  {
    match mode
    case Fill(options) => FillCall(path, options)
    case Stroke(options) => StrokeCall(path, options)
  }

  /** The buffers builder writing one call's output into fresh, empty
      buffers: every emitted vertex goes through the vertex constructor,
      the indices are copied. */
  function Collect<V>(out: TessOutput<V>, construct: V -> Vertex): (b: VertexBuffers)
    ensures |b.vertices| == |out.vertices|
    ensures forall i :: 0 <= i < |out.vertices| ==> b.vertices[i] == construct(out.vertices[i])
    ensures b.indices == out.indices
  {
    VertexBuffers(EmptyBuffers.vertices + Map(construct, out.vertices), EmptyBuffers.indices + out.indices)
  }

  /** Performs one engine call. Only the engine the call names is applied,
      and the buffers hold exactly what that engine emitted, each vertex
      made by the vertex constructor, whether or not it succeeded. */
  function Run(t: Tessellators, call: TessCall): (r: Tessellated)
    ensures call.FillCall? ==> r.status == t.fill(call.path, call.fillOptions).status
    ensures call.StrokeCall? ==> r.status == t.stroke(call.path, call.strokeOptions).status
    ensures call.FillCall? ==>
              var out := t.fill(call.path, call.fillOptions);
              && |r.buffers.vertices| == |out.vertices|
              && (forall i :: 0 <= i < |out.vertices| ==> r.buffers.vertices[i] == NewFillVertex(out.vertices[i]))
              && r.buffers.indices == out.indices
    ensures call.StrokeCall? ==>
              var out := t.stroke(call.path, call.strokeOptions);
              && |r.buffers.vertices| == |out.vertices|
              && (forall i :: 0 <= i < |out.vertices| ==> r.buffers.vertices[i] == NewStrokeVertex(out.vertices[i]))
              && r.buffers.indices == out.indices
    ensures All(IsFlat, r.buffers.vertices)
    ensures KeepsPromise(t) && r.status.Pass? ==> ValidBuffers(r.buffers)
  {
    match call
    case FillCall(path, options) =>
      var out := t.fill(path, options);
      Tessellated(Collect(out, NewFillVertex), out.status)
    case StrokeCall(path, options) =>
      var out := t.stroke(path, options);
      Tessellated(Collect(out, NewStrokeVertex), out.status)
  }

  /** Routing, stated as non-interference: what a fill-mode path yields
      depends on the fill engine alone, and a stroke-mode path on the
      stroke engine alone. */
  lemma RoutingIgnoresOtherEngine(t1: Tessellators, t2: Tessellators, path: Path, mode: TessellationMode)
    requires mode.Fill? ==> t1.fill(path, mode.fillOptions) == t2.fill(path, mode.fillOptions)
    requires mode.Stroke? ==> t1.stroke(path, mode.strokeOptions) == t2.stroke(path, mode.strokeOptions)
    ensures Run(t1, CallFor(path, mode)) == Run(t2, CallFor(path, mode))
  {
  }
}
