/** The default vertex construction of the `DrawableObject` trait
    (src/drawable_object/drawable_object.rs): an object becomes two triangles
    sharing a diagonal, six vertices in all, with fixed texture coordinates. */
module DrawableObject {
  import opened VertexLayout

  /** The texture coordinate of each corner of the image (lines 62-93). */
  const TopRightCoords: Pair := (1.0, 0.0)
  const TopLeftCoords: Pair := (0.0, 0.0)
  const BottomRightCoords: Pair := (1.0, 1.0)
  const BottomLeftCoords: Pair := (0.0, 1.0)

  /** What the trait's accessors `get_position`, `get_size` and `get_tex_i`
      return for an object. */
  datatype DrawableState = DrawableState(position: Pair, size: real, texI: U32)

  /** Twice the signed area of the triangle (a, b, c). */
  function SignedArea2(a: Pair, b: Pair, c: Pair): real {
    (b.0 - a.0) * (c.1 - a.1) - (b.1 - a.1) * (c.0 - a.0)
  }

  /** The six-vertex layout both `construct_vertices` bodies write out: corners
      at (cx ± hx, cy ± hy), in the order top-right, top-left, bottom-left,
      top-right, bottom-left, bottom-right, all with texture `texI`. */
  function QuadVertices(cx: real, cy: real, hx: real, hy: real, texI: U32): (r: seq<Vertex>)
    ensures |r| == 6
    ensures forall k :: 0 <= k < 6 ==> r[k].texI == texI
    // the two triangles share the diagonal from vertex 0 to vertex 2
    ensures r[3] == r[0] && r[4] == r[2]
    ensures r[0].coords == (1.0, 0.0) && r[1].coords == (0.0, 0.0) && r[2].coords == (0.0, 1.0)
    ensures r[3].coords == (1.0, 0.0) && r[4].coords == (0.0, 1.0) && r[5].coords == (1.0, 1.0)
    // opposite corners are mirror images about the centre
    ensures r[0].position.0 + r[2].position.0 == 2.0 * cx && r[0].position.1 + r[2].position.1 == 2.0 * cy
    ensures r[1].position.0 + r[5].position.0 == 2.0 * cx && r[1].position.1 + r[5].position.1 == 2.0 * cy
    // the sides are axis-aligned, 2·hx wide and 2·hy high
    ensures r[0].position.1 == r[1].position.1 && r[2].position.1 == r[5].position.1
    ensures r[1].position.0 == r[2].position.0 && r[0].position.0 == r[5].position.0
    ensures r[0].position.0 - r[1].position.0 == 2.0 * hx && r[2].position.1 - r[1].position.1 == 2.0 * hy
    // both triangles have the same orientation
    ensures SignedArea2(r[0].position, r[1].position, r[2].position) == -4.0 * hx * hy
    ensures SignedArea2(r[3].position, r[4].position, r[5].position) == -4.0 * hx * hy
  {
    [ Vertex((cx + hx, cy - hy), texI, TopRightCoords),
      Vertex((cx - hx, cy - hy), texI, TopLeftCoords),
      Vertex((cx - hx, cy + hy), texI, BottomLeftCoords),
      Vertex((cx + hx, cy - hy), texI, TopRightCoords),
      Vertex((cx - hx, cy + hy), texI, BottomLeftCoords),
      Vertex((cx + hx, cy + hy), texI, BottomRightCoords) ]
  }

  /** The half-size of the object along one axis (lines 11-12). */
  function HalfSize(size: real, windowDim: real): real
    requires windowDim != 0.0
  {
    size / windowDim * 2.0
  }

  /** The default `construct_vertices` (lines 8-46): centred on the object's
      position relative to the camera, the size scaled by the in-game window
      dimensions. */
  function ConstructVertices(obj: DrawableState, camera: Pair, windowDims: Pair): (r: seq<Vertex>)
    requires windowDims.0 != 0.0 && windowDims.1 != 0.0
    ensures |r| == 6 && forall k :: 0 <= k < 6 ==> r[k].texI == obj.texI
  {
    QuadVertices(obj.position.0 - camera.0, obj.position.1 - camera.1,
                 HalfSize(obj.size, windowDims.0), HalfSize(obj.size, windowDims.1), obj.texI)
  }

  /** The corners of the default quad, with (x, y) = position − camera and
      (sx, sy) = size / window_dims · 2. */
  lemma ConstructVerticesCorners(obj: DrawableState, camera: Pair, windowDims: Pair)
    requires windowDims.0 != 0.0 && windowDims.1 != 0.0
    ensures var r := ConstructVertices(obj, camera, windowDims);
            var x, y := obj.position.0 - camera.0, obj.position.1 - camera.1;
            var sx, sy := obj.size / windowDims.0 * 2.0, obj.size / windowDims.1 * 2.0;
            && r[0].position == r[3].position == (x + sx, y - sy)
            && r[1].position == (x - sx, y - sy)
            && r[2].position == r[4].position == (x - sx, y + sy)
            && r[5].position == (x + sx, y + sy)
  {
  }

  /** Doubling the in-game window width halves the quad's width. */
  lemma HalfSizeDoubling(size: real, windowDim: real)
    requires windowDim != 0.0
    ensures HalfSize(size, 2.0 * windowDim) == HalfSize(size, windowDim) / 2.0
  {
  }

  /** Moving the object and the camera by the same offset leaves the vertices
      unchanged: only the position relative to the camera matters. */
  lemma TranslationInvariant(obj: DrawableState, camera: Pair, windowDims: Pair, offset: Pair)
    requires windowDims.0 != 0.0 && windowDims.1 != 0.0
    ensures ConstructVertices(obj.(position := (obj.position.0 + offset.0, obj.position.1 + offset.1)),
                              (camera.0 + offset.0, camera.1 + offset.1), windowDims)
         == ConstructVertices(obj, camera, windowDims)
  {
  }

  /** An object of size 0.4 at the origin, seen from the origin with an
      in-game window of (1, 1): the factor 2 of lines 11-12 puts the corners
      at ±0.8. */
  lemma ConstructVerticesExample()
    ensures var r := ConstructVertices(DrawableState((0.0, 0.0), 0.4, 0), (0.0, 0.0), (1.0, 1.0));
            && r[0].position == (0.8, -0.8) && r[1].position == (-0.8, -0.8)
            && r[2].position == (-0.8, 0.8) && r[5].position == (0.8, 0.8)
  {
  }
}
