/** The output vertex of the shape pipeline and the rule that builds it from
    a point reported by the fill or stroke tessellator.

    Coordinates are `f32` in the program; they are only copied, never
    computed on, so they are modelled as `real`. */
module Vertices {

  /** A 2D point as the tessellator reports it. */
  datatype Point = Point(x: real, y: real)

  datatype Vec3 = Vec3(x: real, y: real, z: real)

  datatype Vec2 = Vec2(u: real, v: real)

  /** The vertex inserted into a mesh: position, normal and texture
      coordinates. Equality is structural. */
  datatype Vertex = Vertex(position: Vec3, normal: Vec3, uv: Vec2)

  /** A vertex emitted by the fill tessellator; only its position is read. */
  datatype FillVertex = FillVertex(position: Point)

  /** A vertex emitted by the stroke tessellator. Besides the position it
      carries the extrusion normal and the distance travelled along the
      stroke; the vertex constructor reads neither. */
  datatype StrokeVertex = StrokeVertex(position: Point, normal: Point, advancement: real)

  const Up: Vec3 := Vec3(0.0, 0.0, 1.0)
  const NoUv: Vec2 := Vec2(0.0, 0.0)

  /** The invariant of every vertex this 2D pipeline produces: it lies in
      the plane z = 0, faces the camera and has no texture coordinates. */
  predicate IsFlat(v: Vertex) {
    v.position.z == 0.0 && v.normal == Up && v.uv == NoUv
  }

  /** The 2D point a vertex stands for. */
  function PointOf(v: Vertex): Point {
    Point(v.position.x, v.position.y)
  }

  /** The fill side of the vertex constructor. */
  function NewFillVertex(vertex: FillVertex): (r: Vertex)
    ensures IsFlat(r)
    ensures PointOf(r) == vertex.position
  {
    Vertex(Vec3(vertex.position.x, vertex.position.y, 0.0), Vec3(0.0, 0.0, 1.0), Vec2(0.0, 0.0))
  }

  /** The stroke side of the vertex constructor. */
  function NewStrokeVertex(vertex: StrokeVertex): (r: Vertex)
    ensures IsFlat(r)
    ensures PointOf(r) == vertex.position
  {
    Vertex(Vec3(vertex.position.x, vertex.position.y, 0.0), Vec3(0.0, 0.0, 1.0), Vec2(0.0, 0.0))
  }

  /** The two constructors agree: a fill vertex and a stroke vertex at the
      same point give the same vertex, whatever else the stroke vertex
      carries. */
  lemma FillStrokeAgree(f: FillVertex, s: StrokeVertex)
    requires f.position == s.position
    ensures NewFillVertex(f) == NewStrokeVertex(s)
  {
  }

  /** The constructor loses nothing of the point and its image is exactly
      the flat vertices: a vertex is flat if and only if it is the vertex
      constructed from its own point. */
  lemma FlatIffConstructed(v: Vertex)
    ensures IsFlat(v) <==> NewFillVertex(FillVertex(PointOf(v))) == v
    ensures IsFlat(v) <==> NewStrokeVertex(StrokeVertex(PointOf(v), Point(0.0, 0.0), 0.0)) == v
  {
  }
}
