# A verified model of dug's input dispatch, quad construction and vertex-list upkeep

dug is a small Rust game prototype. `button_mapping.rs` defines a default
key-binding table and a key-press dispatch over it (no caller in the code
invokes either: `controller.rs` discards keyboard input), game objects turn
themselves into textured quads for the GPU, and the render loop maintains a
flat list of vertices that it uploads every frame. Most of the repository sets up Vulkan
and the window; this project models the three pieces of sequential logic
around that setup and proves what they do.

- `button_mapping.dfy` (module `ButtonMapping`): the default binding table
  (`load_default_keybinds`) and key-press/-release dispatch. Each bound
  function is a tag of `Action`; dispatch returns the tag it would
  call. The button-index constants live in `button_constants.rs`, which is not
  part of this model, so they are a parameter `idx: Button -> nat`; the proofs
  hold for every choice of constants below 11, and the exact slot contents
  for every choice of distinct ones. `ExampleIndex` is one such choice.
- `vertex_layout.dfy` (module `VertexLayout`): the `Vertex` record.
- `drawable_object.dfy` (module `DrawableObject`): the trait's default
  `construct_vertices`, the four texture-coordinate constants, and
  `QuadVertices`, the six-vertex layout both vertex constructors write out.
- `game_object.dfy` (module `GameObject`): the debug object's own
  `construct_vertices` and `process_animation`.
- `renderer.dfy` (module `Renderer`): the `MainEventsCleared` arm of the
  render loop, as a class `RenderLoop` holding the vertex list and the two
  timestamps, with a spec function `Tick` for one event and lemmas about runs
  of ticks.

Coordinates are `real`; the model states structural and algebraic facts
(layout, symmetry, translation, lengths), not f32 rounding.

Two facts about the code that the lemmas make explicit:
- The factor 2 at `drawable_object.rs:11-12` puts the corners of a size-0.4
  object at the origin at ±0.8 for an in-game window of (1, 1);
  `DrawableObject.ConstructVerticesExample` states this.
- Each slot of the table holds one action, and `key_action_released`
  (`button_mapping.rs:213-215`) does nothing.

## Model

| member | source | states |
|---|---|---|
| `ButtonMapping.Resize` | src/controller/button_mapping.rs:14 | `Vec::resize` gives exactly `n` slots: the old ones kept, the new ones the fill value |
| `ButtonMapping.LoadDefaultKeybinds` | src/controller/button_mapping.rs:9-41 | the table has 11 slots; slot i holds the value of the last assignment to i; the CTRL slot is None whatever the constants; slots no button owns stay None; with distinct constants every button's slot holds its default binding (W up, D ×0.5, A ×2, Space regular, mouse-left place object, J/L wheel up/down, S and the other mouse buttons no_action) |
| `ButtonMapping.SlotAfterLoadDistinct` | src/controller/button_mapping.rs:15-39 | with distinct constants no assignment overwrites another, so each button's slot ends with its own binding |
| `ButtonMapping.KeyButton` | src/controller/button_mapping.rs:46-210 | exactly the keys A, D, J, L, S, W and Space reach a slot, and none of them reaches a mouse or CTRL slot |
| `ButtonMapping.KeyActionPressed` | src/controller/button_mapping.rs:44-211 | a bound key fires exactly what its slot holds (nothing when the slot is None); every other key fires nothing; requires the key's slot index below the table length, since the source indexes directly |
| `ButtonMapping.KeyActionReleased` | src/controller/button_mapping.rs:213-215 | release fires nothing, whatever the key and table |
| `ButtonMapping.DefaultTablePressInRange` | src/controller/button_mapping.rs:14-57 | the default table satisfies dispatch's indexing requirement for every key |
| `ButtonMapping.DefaultPress` | src/controller/button_mapping.rs:57-123 | on the default table W fires up_action, D the ×0.5 width, A the ×2 width, Space the regular width, J/L the simulated wheel, S no_action, every other key nothing |
| `ButtonMapping.PressReadsOnlyItsSlot` | src/controller/button_mapping.rs:57-123 | a press depends only on the key's own slot: tables that agree there give the same result, so mouse and CTRL slots never matter |
| `DrawableObject.QuadVertices` | src/drawable_object/drawable_object.rs:14-46 | six vertices of one texture; vertex 0 = vertex 3 and vertex 2 = vertex 4; texture coordinates (1,0),(0,0),(0,1),(1,0),(0,1),(1,1); opposite corners mirror about the centre; axis-aligned sides 2·hx by 2·hy; both triangles with the same signed area |
| `DrawableObject.ConstructVertices` | src/drawable_object/drawable_object.rs:8-47 | six vertices, all with the object's `get_tex_i()` |
| `DrawableObject.ConstructVerticesCorners` | src/drawable_object/drawable_object.rs:9-43 | corners at (x ± sx, y ∓ sy) in the fixed order, with (x, y) = position − camera and sx = size / window_dims.0 · 2, sy = size / window_dims.1 · 2 |
| `DrawableObject.HalfSizeDoubling` | src/drawable_object/drawable_object.rs:11-12 | doubling the in-game window dimension halves the half-size |
| `DrawableObject.TranslationInvariant` | src/drawable_object/drawable_object.rs:9-10 | moving object and camera by the same offset leaves the vertices unchanged |
| `DrawableObject.ConstructVerticesExample` | src/drawable_object/drawable_object.rs:8-46 | size 0.4 at the origin, camera at the origin, window (1,1): corners at ±0.8 |
| `GameObject.ConstructVertices` | src/model/game_object/debug_object.rs:29-67 | six vertices, all with the object's own `tex_i` |
| `GameObject.ConstructVerticesCorners` | src/model/game_object/debug_object.rs:30-63 | corners at (x ± size, y ± size) around position − camera; no window dimensions involved |
| `GameObject.CameraOnObject` | src/model/game_object/debug_object.rs:30-63 | with the camera on the object the corners are (±size, ±size) |
| `GameObject.SameLayoutAsDefault` | src/model/game_object/debug_object.rs:34-66 | the debug layout equals the default one with in-game window (2, 2), so winding, diagonal and texture coordinates match the default |
| `GameObject.ProcessAnimation` | src/model/game_object/debug_object.rs:69-71 | position, tex_i and size are unchanged |
| `Renderer.ColumnOf` | src/view/renderer.rs:306-309 | the reduced column is at most 500, congruent to i modulo 500, and zero only for i = 0, so positive multiples of 500 end at 500 |
| `Renderer.ReduceColumn` | src/view/renderer.rs:306-309 | the `i2` loop terminates with the value `ColumnOf(i)` |
| `Renderer.GridGroupIsQuad` | src/view/renderer.rs:304-315 | each generated group is the standard quad of half-size 0.4 with texture 0 |
| `Renderer.Grid` | src/view/renderer.rs:301-317 | the grid of n quads has 6·n vertices, all with texture 0 |
| `Renderer.GridGroupAt` | src/view/renderer.rs:303-317 | group k of the grid is the six vertices pushed for quad k |
| `Renderer.GridGroupsAreQuads` | src/view/renderer.rs:310-315 | every grid group has texture 0, vertex 0 = vertex 3, vertex 2 = vertex 4, and the fixed texture coordinates |
| `Renderer.Drifted` | src/view/renderer.rs:327-328 | the drift keeps the length, x, tex_i and coords; it raises y by one step, twice for texture 1 |
| `Renderer.SpawnIndex` | src/view/renderer.rs:334 | the spawned texture is 0 or 1, and 1 exactly for an odd random value |
| `Renderer.SpawnGroupIsQuad` | src/view/renderer.rs:337-344 | the spawned group is the standard quad of half-size 0.4 centred at (sign − 0.5, −0.5) |
| `Renderer.TickRegenerates` | src/view/renderer.rs:300-344 | a list under 100 vertices is replaced by the 30000-vertex grid, which is then only drifted and possibly extended by one quad |
| `Renderer.TickExtends` | src/view/renderer.rs:300-344 | a list of at least 100 vertices keeps all its vertices in place (drifted or not) and gains 6 vertices of texture r mod 2 exactly when a spawn is due |
| `Renderer.TickInvariant` | src/view/renderer.rs:300-344 | a tick keeps the length a multiple of 6 and leaves at least 100 vertices |
| `Renderer.RunInvariant` | src/view/renderer.rs:95-344 | over any run of ticks the length stays a multiple of 6, and at least 100 after the first tick |
| `Renderer.AtMostOneRegeneration` | src/view/renderer.rs:300-317 | in any run the grid is generated at most once, and never from a list of 100 or more |
| `Renderer.RenderLoop.constructor` | src/view/renderer.rs:93-95 | the list starts empty and both timestamps hold the start time |
| `Renderer.RenderLoop.Regenerate` | src/view/renderer.rs:301-317 | the list becomes exactly the 5000-quad grid |
| `Renderer.RenderLoop.Drift` | src/view/renderer.rs:327-328 | the two `iter_mut` passes give the drifted list |
| `Renderer.RenderLoop.Spawn` | src/view/renderer.rs:334-344 | the list gains the spawned group at its end |
| `Renderer.RenderLoop.MainEventsCleared` | src/view/renderer.rs:283-353 | the list becomes `Tick` of the old list, keeps whole quads and at least 100 vertices; last_change becomes now; last_image_added becomes now exactly when a spawn happened |

## Left out

- GPU, window and sprite setup (`rendering.rs`, both `renderer_init.rs`, `sprite_loading.rs`, the swapchain, command-buffer and present code of `renderer.rs`): library plumbing with no logic of its own; the y-drift over a fixed array in `rendering.rs` repeats the drift modelled here.
- Threads, atomics and locks (`main.rs`, `model.rs`, the CloseRequested join loop, the `RwLock` around the vertex list): concurrency; the list is a plain sequence.
- `dummy_renderer.rs` (an empty loop), `static_object.rs` (`todo!()`), `controller.rs` (only prints), `controller_input.rs` and `game_state.rs` (type definitions with no behaviour here), `game_object.rs` (a default returning an empty list).
- The bodies of the bound actions and the values of the button constants: their files are not part of this model; actions are tags and the constants a parameter. `ExampleIndex` is an assumed assignment, not the real one.
- The `println!` calls and the string round-trip filler loop of `MainEventsCleared` (renderer.rs:290-296): no effect on the state modelled.
- f32/f64 rounding and the `as f32` casts: coordinates are reals, and the `i2` loop runs on integers, which f32 holds exactly at these sizes.
- Randomness and the clock: the random `u32`, the `gen_range(0.0..1.0)` draw and the clock reading are parameters of `MainEventsCleared`.
- `Renderer.RenderLoop.MainEventsCleared`: the four `SystemTime::now()` reads of one event are taken as one instant `now`, so the model does not capture the few microseconds between them; and a clock reading earlier than either stored timestamp is excluded by its requires, because the source panics there (`time_diff.unwrap()` at renderer.rs:324, `duration_since(last_image_added).unwrap()` at renderer.rs:332) and the model does not capture that panic.
- `DrawableObject.ConstructVertices`: requires non-zero in-game window dimensions, because real division by zero has no value; in f32 the source would produce infinite coordinates.
- `DebugObject::construct_vertices` takes no window dimensions, unlike the trait method it appears to override; the two are modelled as separate functions, related by `GameObject.SameLayoutAsDefault`.
