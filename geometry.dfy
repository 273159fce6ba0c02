/** Value types read and written by the 2D renderer, and the quad a renderable becomes. */
module Geometry {

  /** A 2D vector; for a renderable's size, x is the width and y the height. */
  datatype Vector2 = Vector2(x: real, y: real)

  /** A 3D position. */
  datatype Vector3 = Vector3(x: real, y: real, z: real)

  /** An RGBA colour with floating-point channels (ColorF). */
  datatype Color = Color(r: real, g: real, b: real, a: real)

  /** One record of the vertex buffer: a position and a colour. */
  datatype VertexData = VertexData(vertex: Vector3, color: Color)

  /** What submit reads from a renderable: its anchor (bottom-left corner), its size and its colour. */
  datatype Renderable = Renderable(pos: Vector3, size: Vector2, color: Color)

  /** The four vertices one submitted renderable occupies in the vertex buffer, in buffer
      order: the first is the anchor, and all lie at the anchor's depth in its colour. */
  function QuadVertices(r: Renderable): (vs: seq<VertexData>)
    ensures |vs| == 4 && vs[0].vertex == r.pos
    ensures vs[0].color == vs[1].color == vs[2].color == vs[3].color == r.color
    ensures vs[1].vertex.z == vs[2].vertex.z == vs[3].vertex.z == r.pos.z
  {
    var p, s := r.pos, r.size;
    [ VertexData(p, r.color),
      VertexData(Vector3(p.x, p.y + s.y, p.z), r.color),
      VertexData(Vector3(p.x + s.x, p.y + s.y, p.z), r.color),
      VertexData(Vector3(p.x + s.x, p.y, p.z), r.color) ]
  }

  /** Twice the signed area of the triangle (a, b, c) projected on the xy-plane:
      negative when the corners run clockwise, positive when counter-clockwise. */
  function Cross(a: Vector3, b: Vector3, c: Vector3): (c2: real)
  {
    (b.x - a.x) * (c.y - a.y) - (b.y - a.y) * (c.x - a.x)
  }

  /** A renderable becomes the quad spanned by its anchor and anchor + size, corners in the
      order bottom-left, top-left, top-right, bottom-right, in the plane z = pos.z, with
      every vertex carrying the renderable's colour; for a non-negative size every corner
      lies inside that axis-aligned rectangle. */
  lemma QuadCornerOrder(r: Renderable)
    ensures var vs := QuadVertices(r);
      |vs| == 4 &&
      (forall i :: 0 <= i < 4 ==> vs[i].color == r.color && vs[i].vertex.z == r.pos.z) &&
      (r.size.x >= 0.0 && r.size.y >= 0.0 ==>
         forall i :: 0 <= i < 4 ==>
           r.pos.x <= vs[i].vertex.x <= r.pos.x + r.size.x &&
           r.pos.y <= vs[i].vertex.y <= r.pos.y + r.size.y) &&
      // bottom-left
      vs[0].vertex.x == r.pos.x && vs[0].vertex.y == r.pos.y &&
      // top-left
      vs[1].vertex.x == r.pos.x && vs[1].vertex.y == r.pos.y + r.size.y &&
      // top-right
      vs[2].vertex.x == r.pos.x + r.size.x && vs[2].vertex.y == r.pos.y + r.size.y &&
      // bottom-right
      vs[3].vertex.x == r.pos.x + r.size.x && vs[3].vertex.y == r.pos.y
  {
  }

  /** The quad's triangles (0, 1, 2) and (2, 3, 0) have the same orientation and each has
      half the area of the width-by-height rectangle; corners 1 and 3 lie on opposite sides
      of the shared diagonal 0-2, so the two triangles are the rectangle's two halves. */
  lemma QuadTriangles(r: Renderable)
    ensures var vs, w, h := QuadVertices(r), r.size.x, r.size.y;
      Cross(vs[0].vertex, vs[1].vertex, vs[2].vertex) == -(w * h) &&
      Cross(vs[2].vertex, vs[3].vertex, vs[0].vertex) == -(w * h) &&
      Cross(vs[0].vertex, vs[2].vertex, vs[1].vertex) == w * h &&
      Cross(vs[0].vertex, vs[2].vertex, vs[3].vertex) == -(w * h)
  {
    var vs, w, h := QuadVertices(r), r.size.x, r.size.y;
    assert vs[1].vertex.x - vs[0].vertex.x == 0.0 && vs[1].vertex.y - vs[0].vertex.y == h;
    assert vs[2].vertex.x - vs[0].vertex.x == w && vs[2].vertex.y - vs[0].vertex.y == h;
    assert vs[3].vertex.x - vs[2].vertex.x == 0.0 && vs[3].vertex.y - vs[2].vertex.y == -h;
    assert vs[0].vertex.x - vs[2].vertex.x == -w && vs[0].vertex.y - vs[2].vertex.y == -h;
  }

  /** A worked example: anchor (10, 20, 0), size (5, 8), opaque red. */
  lemma QuadVerticesExample()
    ensures var red := Color(1.0, 0.0, 0.0, 1.0);
      QuadVertices(Renderable(Vector3(10.0, 20.0, 0.0), Vector2(5.0, 8.0), red)) ==
        [ VertexData(Vector3(10.0, 20.0, 0.0), red),
          VertexData(Vector3(10.0, 28.0, 0.0), red),
          VertexData(Vector3(15.0, 28.0, 0.0), red),
          VertexData(Vector3(15.0, 20.0, 0.0), red) ]
  {
  }
}
