/** Mesh assembly: turning the tessellator's vertex/index buffers into the
    engine's mesh record (`build_mesh` in src/plugin.rs). */
module Meshes {
  import opened Wrappers
  import opened Sequences
  import opened Vertices

  /** The mesh index type, `u32`. */
  newtype u32 = x: int | 0 <= x < 0x1_0000_0000

  newtype u16 = x: int | 0 <= x < 0x1_0000

  /** The tessellator's output buffers: vertices and a triangle-list index
      array referring to them. */
  datatype VertexBuffers = VertexBuffers(vertices: seq<Vertex>, indices: seq<u32>)

  /** The fresh buffers each entity starts from. */
  const EmptyBuffers: VertexBuffers := VertexBuffers([], [])

  /** The mesh record of the engine, restricted to the parts this system
      touches: the primitive topology, the named per-vertex attribute arrays
      and the optional index array. */
  datatype PrimitiveTopology = PointList | LineList | LineStrip | TriangleList | TriangleStrip

  datatype Indices = U16(short: seq<u16>) | U32(long: seq<u32>)

  datatype AttributeName = Position | Normal | Uv0

  /** Attribute arrays of the two element shapes used here. */
  datatype AttributeValues = Float2(pairs: seq<Vec2>) | Float3(triples: seq<Vec3>)

  datatype Mesh = Mesh(
    topology: PrimitiveTopology,
    attributes: map<AttributeName, AttributeValues>,
    indices: Option<Indices>)

  /** A mesh with the given topology, no attributes and no indices. */
  function NewMesh(topology: PrimitiveTopology): Mesh {
    Mesh(topology, map[], None)
  }

  function SetIndices(m: Mesh, indices: Option<Indices>): Mesh {
    m.(indices := indices)
  }

  /** Inserts an attribute array, replacing any array of the same name. */
  function SetAttribute(m: Mesh, name: AttributeName, values: AttributeValues): Mesh {
    m.(attributes := m.attributes[name := values])
  }

  function PositionOf(v: Vertex): Vec3 { v.position }
  function NormalOf(v: Vertex): Vec3 { v.normal }
  function UvOf(v: Vertex): Vec2 { v.uv }

  /** Builds the mesh for a buffer pair: a triangle list whose index array
      is the buffers' index array and whose position, normal and uv arrays
      are the vertices' fields, in vertex order. Total: empty buffers give
      an empty mesh. */
  function BuildMesh(buffers: VertexBuffers): (m: Mesh)
    ensures m.topology == TriangleList
    ensures m.indices == Some(U32(buffers.indices))
    ensures m.attributes.Keys == {Position, Normal, Uv0}
    ensures m.attributes[Position].Float3? && |m.attributes[Position].triples| == |buffers.vertices|
    ensures m.attributes[Normal].Float3? && |m.attributes[Normal].triples| == |buffers.vertices|
    ensures m.attributes[Uv0].Float2? && |m.attributes[Uv0].pairs| == |buffers.vertices|
    ensures forall i :: 0 <= i < |buffers.vertices| ==>
              && m.attributes[Position].triples[i] == buffers.vertices[i].position
              && m.attributes[Normal].triples[i] == buffers.vertices[i].normal
              && m.attributes[Uv0].pairs[i] == buffers.vertices[i].uv
  {
    var m := NewMesh(TriangleList);
    var m := SetIndices(m, Some(U32(buffers.indices)));
    var m := SetAttribute(m, Position, Float3(Map(PositionOf, buffers.vertices)));
    var m := SetAttribute(m, Normal, Float3(Map(NormalOf, buffers.vertices)));
    SetAttribute(m, Uv0, Float2(Map(UvOf, buffers.vertices)))
  }

  /** Reassembles vertices from three parallel attribute arrays. */
  function Zip(positions: seq<Vec3>, normals: seq<Vec3>, uvs: seq<Vec2>): (vs: seq<Vertex>)
    requires |positions| == |normals| == |uvs|
    ensures |vs| == |positions|
    ensures forall i :: 0 <= i < |vs| ==>
              vs[i] == Vertex(positions[i], normals[i], uvs[i])
  {
    if positions == [] then []
    else [Vertex(positions[0], normals[0], uvs[0])] + Zip(positions[1..], normals[1..], uvs[1..])
  }

  /** The buffers a mesh was built from, read back out of it: `None` when
      the mesh lacks a `u32` index array, lacks one of the three attribute
      arrays, has one of the wrong shape, or has arrays of unequal length. */
  function MeshBuffers(m: Mesh): (r: Option<VertexBuffers>)
    ensures r.Some? ==> m.indices == Some(U32(r.value.indices))
    ensures r.Some? ==> Position in m.attributes && m.attributes[Position] == Float3(Map(PositionOf, r.value.vertices))
    ensures r.Some? ==> Normal in m.attributes && m.attributes[Normal] == Float3(Map(NormalOf, r.value.vertices))
    ensures r.Some? ==> Uv0 in m.attributes && m.attributes[Uv0] == Float2(Map(UvOf, r.value.vertices))
  {
    if && m.indices.Some? && m.indices.value.U32?
       && Position in m.attributes && m.attributes[Position].Float3?
       && Normal in m.attributes && m.attributes[Normal].Float3?
       && Uv0 in m.attributes && m.attributes[Uv0].Float2?
       && |m.attributes[Position].triples| == |m.attributes[Normal].triples| == |m.attributes[Uv0].pairs|
    then
      Some(VertexBuffers(
        Zip(m.attributes[Position].triples, m.attributes[Normal].triples, m.attributes[Uv0].pairs),
        m.indices.value.long))
    else None
  }

  /** Mesh assembly loses nothing: the buffers can be read back. */
  lemma BuildMeshRoundTrip(b: VertexBuffers)
    ensures MeshBuffers(BuildMesh(b)) == Some(b)
  {
    var m := BuildMesh(b);
    var vs := Zip(m.attributes[Position].triples, m.attributes[Normal].triples, m.attributes[Uv0].pairs);
    assert vs == b.vertices;
  }

  /** Conversely, every triangle-list mesh carrying exactly the three
      attribute arrays that can be read back is the assembly of what it
      reads back to. */
  lemma BuildMeshOnto(m: Mesh, b: VertexBuffers)
    requires m.topology == TriangleList
    requires m.attributes.Keys == {Position, Normal, Uv0}
    requires MeshBuffers(m) == Some(b)
    ensures BuildMesh(b) == m
  {
    var ps, ns, uvs := m.attributes[Position].triples, m.attributes[Normal].triples, m.attributes[Uv0].pairs;
    var built := BuildMesh(b);
    assert built.attributes[Position].triples == ps;
    assert built.attributes[Normal].triples == ns;
    assert built.attributes[Uv0].pairs == uvs;
    assert built.attributes == m.attributes;
  }

  /** A triangle list over `count` vertices: whole triangles, every index in
      range. */
  predicate ValidTriangleList(count: nat, indices: seq<u32>) {
    && |indices| % 3 == 0
    && forall i :: 0 <= i < |indices| ==> (indices[i] as int) < count
  }

  predicate ValidBuffers(b: VertexBuffers) {
    ValidTriangleList(|b.vertices|, b.indices)
  }

  /** A mesh whose `u32` index array is a valid triangle list over its
      position array. */
  predicate ValidMesh(m: Mesh) {
    && m.topology == TriangleList
    && m.indices.Some? && m.indices.value.U32?
    && Position in m.attributes && m.attributes[Position].Float3?
    && ValidTriangleList(|m.attributes[Position].triples|, m.indices.value.long)
  }

  /** Assembly neither repairs nor breaks the index array: the mesh is
      valid exactly when the buffers were. */
  lemma BuildMeshKeepsValidity(b: VertexBuffers)
    ensures ValidMesh(BuildMesh(b)) <==> ValidBuffers(b)
  {
  }

  /** Every vertex recorded in the mesh lies in z = 0, faces up and has no
      texture coordinates. */
  predicate FlatMesh(m: Mesh) {
    && Position in m.attributes && m.attributes[Position].Float3?
    && Normal in m.attributes && m.attributes[Normal].Float3?
    && Uv0 in m.attributes && m.attributes[Uv0].Float2?
    && (forall i :: 0 <= i < |m.attributes[Position].triples| ==> m.attributes[Position].triples[i].z == 0.0)
    && (forall i :: 0 <= i < |m.attributes[Normal].triples| ==> m.attributes[Normal].triples[i] == Up)
    && (forall i :: 0 <= i < |m.attributes[Uv0].pairs| ==> m.attributes[Uv0].pairs[i] == NoUv)
  }

  /** The mesh is flat exactly when every buffer vertex was. */
  lemma BuildMeshFlat(b: VertexBuffers)
    ensures FlatMesh(BuildMesh(b)) <==> All(IsFlat, b.vertices)
  {
    var m := BuildMesh(b);
    if FlatMesh(m) {
      forall i | 0 <= i < |b.vertices|
        ensures IsFlat(b.vertices[i])
      {
        assert m.attributes[Position].triples[i].z == 0.0;
        assert m.attributes[Normal].triples[i] == Up;
        assert m.attributes[Uv0].pairs[i] == NoUv;
      }
    }
  }
}
