/** The debug object (src/model/game_object/debug_object.rs): a square whose
    own `construct_vertices` ignores any window dimensions. */
module GameObject {
  import opened VertexLayout
  import DrawableObject

  datatype DebugObject = DebugObject(position: Pair, texI: U32, size: real)

  /** `DebugObject::construct_vertices` (lines 29-67): the default layout
      centred on the position relative to the camera, with `size` itself as
      the half-size on both axes. */
  function ConstructVertices(obj: DebugObject, camera: Pair): (r: seq<Vertex>)
    ensures |r| == 6 && forall k :: 0 <= k < 6 ==> r[k].texI == obj.texI
  {
    DrawableObject.QuadVertices(obj.position.0 - camera.0, obj.position.1 - camera.1,
                                obj.size, obj.size, obj.texI)
  }

  /** The corners lie at (x ± size, y ± size) around position − camera. */
  lemma ConstructVerticesCorners(obj: DebugObject, camera: Pair)
    ensures var r := ConstructVertices(obj, camera);
            var x, y := obj.position.0 - camera.0, obj.position.1 - camera.1;
            && r[0].position == r[3].position == (x + obj.size, y - obj.size)
            && r[1].position == (x - obj.size, y - obj.size)
            && r[2].position == r[4].position == (x - obj.size, y + obj.size)
            && r[5].position == (x + obj.size, y + obj.size)
  {
  }

  /** With the camera on the object the corners are (±size, ±size). */
  lemma CameraOnObject(obj: DebugObject)
    ensures var r := ConstructVertices(obj, obj.position);
            && r[0].position == (obj.size, -obj.size) && r[1].position == (-obj.size, -obj.size)
            && r[2].position == (-obj.size, obj.size) && r[5].position == (obj.size, obj.size)
  {
  }

  /** The debug layout is the default one seen through an in-game window of
      (2, 2), where the default's size / 2 · 2 is the size itself; so it has
      the same winding, diagonal and texture coordinates. */
  lemma SameLayoutAsDefault(obj: DebugObject, camera: Pair)
    ensures ConstructVertices(obj, camera)
         == DrawableObject.ConstructVertices(DrawableObject.DrawableState(obj.position, obj.size, obj.texI),
                                             camera, (2.0, 2.0))
  {
  }

  /** `process_animation` (lines 69-71) only logs: the object is unchanged. */
  function ProcessAnimation(obj: DebugObject, deltaTime: real): (r: DebugObject)
    ensures r.position == obj.position && r.texI == obj.texI && r.size == obj.size
  {
    obj
  }
}
