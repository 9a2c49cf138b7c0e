/** The vertex record handed to the GPU (src/view/renderer.rs:38-42).
    Coordinates are modelled as reals; the f32 storage format is not. */
module VertexLayout {

  /** An unsigned 32-bit integer, the type of `tex_i`. */
  type U32 = x: int | 0 <= x < 0x1_0000_0000

  /** A point or texture coordinate: the `[f32; 2]` arrays of the record,
      `.0` standing for index 0 and `.1` for index 1. */
  type Pair = (real, real)

  datatype Vertex = Vertex(position: Pair, texI: U32, coords: Pair)
}
