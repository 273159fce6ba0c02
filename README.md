# Renderer2D batching core, modelled in Dafny

This project models the batching engine of the Aurora Framework's 2D renderer
(`AuroraFW::GEngine::Renderer2D`). The renderer collects every sprite of a frame
into one shared vertex buffer and issues a single indexed draw call per frame.

- **Index pattern** (`index_pattern.dfy`, module `IndexPattern`): the constructor builds
  the index buffer once, for `MAX_SPRITES = 60000` quad slots. Each slot `q` gets the two
  triangles `(4q, 4q+1, 4q+2)` and `(4q+2, 4q+3, 4q)`. `GenerateIndices` keeps the
  constructor's loop: `i` steps by 6 and `offset` steps by 4. It is proved equal to the
  specification function `Pattern`. The lemmas give the closed form slot by slot, bound every
  index by the vertex capacity, show that every vertex is used, and show that the first `6k`
  indices touch only the first `4k` vertices.
- **Vertex writer** (`geometry.dfy`, module `Geometry`, and `Renderer2D.Submit`): `submit`
  writes a renderable's four corners at the write cursor, in the order bottom-left, top-left,
  top-right, bottom-right. All four carry the renderable's colour. It then advances the cursor
  by 4 and adds 6 to the index count. `Batch` is the buffer contents that a sequence of
  submits produces. `BatchSlot` ties the index buffer to the written vertices: slot `j`
  reads the `j`-th renderable's corners 0, 1, 2 and 2, 3, 0. `QuadTriangles` shows that
  these two triangles have the same winding, each has half the rectangle's area, and they lie
  on opposite sides of the shared diagonal 0-2, so together they are the rectangle.
- **Frame cycle** (`renderer2d.dfy`, class `Renderer.Renderer2D`): `Begin` puts the cursor
  back at the start of the buffer. `End` releases the buffer. `Present` hands the count to the
  draw call and resets it to 0. The class fields are:
  - the vertex storage, as an `array<VertexData>` of `4 * MAX_SPRITES` records;
  - the cursor `_buffer`, as an offset into that array;
  - the count `_count`;
  - the index buffer's contents;
  - `draws`, the list of index counts passed to the draw call.
  Ghost fields record whether the buffer is mapped, the renderables submitted since the last
  `Begin` (`frame`) and those submitted since the last `Present` (`pending`). `Valid()` ties
  the cursor, the buffer prefix and the count to these ghost fields.
  `RenderFrame`, `TwoCycles` and `PresentTwice` drive the cycle the way a host loop does.
  They prove the end-to-end properties: a full begin, submit, end, present cycle of `k` quads
  that starts from a zero count draws `6k` indices, and nothing carries over from one such
  cycle to the next. The count is reset only by `present`, never by `begin`. So after two
  begin/end brackets without a `present` in between, the next draw covers both brackets'
  submissions. That count is not bounded by the index buffer's size; `RenderFrame` states
  the general draw count as the old count plus `6k`.

Modelling choices, where the code does not say:
- The ghost `mapped` flag is a modelling choice, not behaviour of the code. `Submit` requires
  the buffer to be mapped (after `Begin`), and `Present` requires it to be unmapped (after
  `End`). The code checks neither, and neither `Begin` nor `End` checks the state.
- The code never checks that the cursor stays inside the buffer. `Submit` therefore requires
  room for four more vertices (`cursor + 4 <= buffer.Length`), so a cycle holds at most
  `MAX_SPRITES` submits. A hardened version would report protocol violations and capacity
  overflow as errors. The code reports neither, and the model follows the code: these are
  preconditions, not error results.
- `_count` is given the initial value 0. Its declaration, in the header, is not part of this
  model.
- The capacity is a constant field `maxSprites` of the class. The constructor sets it to
  `MAX_SPRITES`.

## Model

| member | source | states |
|---|---|---|
| IndexPattern.QuadIndices | src/Renderer2D.cpp:56-62 | one loop iteration's six indices: all within the slot's vertices `4q..4q+3`, with the two triangles sharing the diagonal `4q`-`4q+2` |
| IndexPattern.Pattern | src/Renderer2D.cpp:51-65 | the index buffer for `n` quad slots has exactly `6n` entries |
| IndexPattern.GenerateIndices | src/Renderer2D.cpp:51-65 | the constructor's loop (step 6, running offset) fills an array of exactly `6 * maxSprites` entries, equal to `Pattern(maxSprites)`; loop invariant `i == 6q && offset == 4q` |
| IndexPattern.PatternQuad | src/Renderer2D.cpp:53-65 | for every slot `q < n`, entries `6q..6q+5` are `4q, 4q+1, 4q+2, 4q+2, 4q+3, 4q` |
| IndexPattern.PatternPrefix | src/Renderer2D.cpp:54-65 | the pattern for `m <= n` slots is the first `6m` entries of the pattern for `n` slots |
| IndexPattern.PatternBounded | src/Renderer2D.cpp:56-64 | every index is below `4n`, so it addresses a vertex inside the vertex buffer's capacity |
| IndexPattern.PatternCovers | src/Renderer2D.cpp:56-64 | every vertex `v < 4n` is addressed by some index |
| IndexPattern.DrawnIndicesBounded | src/Renderer2D.cpp:113 | the first `6k` indices (a draw of `k` quads) address only the first `4k` vertices |
| IndexPattern.DefaultPatternFits | src/Renderer2D.cpp:23-26 | with 60000 sprites the index buffer has 360000 entries; every index fits an unsigned 32-bit value, and the loop counter and offset fit a signed 32-bit int |
| Geometry.QuadCornerOrder | src/Renderer2D.cpp:80-94 | for any size, the four vertices written are bottom-left `(x,y)`, top-left `(x,y+h)`, top-right `(x+w,y+h)`, bottom-right `(x+w,y)` at depth `z`, all in the renderable's colour; for a non-negative size all four lie inside the rectangle |
| Geometry.QuadVertices | src/Renderer2D.cpp:80-93 | the four records submit writes: exactly four, the first at the anchor, all at the anchor's depth and all in the renderable's colour |
| Geometry.QuadTriangles | src/Renderer2D.cpp:80-94 | the quad's triangles over corners (0,1,2) and (2,3,0) have equal signed area `-(w*h)/2` (the same winding, half the rectangle's area each), and corners 1 and 3 lie on opposite sides of the diagonal 0-2, so the two triangles are the rectangle's two halves |
| Geometry.QuadVerticesExample | src/Renderer2D.cpp:80-93 | anchor (10,20,0), size (5,8), colour (1,0,0,1) gives (10,20,0), (10,28,0), (15,28,0), (15,20,0), all with that colour |
| Renderer.Batch | src/Renderer2D.cpp:80-94 | the buffer contents after `k` submits has exactly `4k` vertices |
| Renderer.BatchAppend | src/Renderer2D.cpp:80-94 | one more submit appends exactly that renderable's four vertices to the batch |
| Renderer.BatchQuad | src/Renderer2D.cpp:80-94 | vertices `4j..4j+3` of a batch are the quad of the `j`-th renderable submitted |
| Renderer.BatchSlot | src/Renderer2D.cpp:56-62 | index slot `j`, drawn over the batch, reads the `j`-th renderable's corners 0,1,2 and then 2,3,0 (the two triangles of `QuadTriangles`) |
| Renderer.Renderer2D.constructor | src/Renderer2D.cpp:32-68 | allocates a vertex buffer of `4 * 60000` records and stores an index buffer of 360000 entries equal to `Pattern(60000)`; count 0, unmapped |
| Renderer.Renderer2D.Submit | src/Renderer2D.cpp:71-97 | writes exactly slots `cursor..cursor+3` with the renderable's quad, leaves every other slot unchanged, advances the cursor by 4, adds 6 to the count, keeps `Valid()` |
| Renderer.Renderer2D.Begin | src/Renderer2D.cpp:99-103 | puts the cursor at the start of the buffer and maps it; the count is untouched |
| Renderer.Renderer2D.End | src/Renderer2D.cpp:105-109 | unmaps the buffer; nothing else changes |
| Renderer.Renderer2D.Present | src/Renderer2D.cpp:111-115 | the draw receives the current count, which is 6 per pending submit; the count is then 0 |
| Renderer.RenderFrame | src/Renderer2D.cpp:99-115 | from an unmapped buffer: begin, `k <= maxSprites` submits, end, present: the draw covers the pending count plus `6k`, the cursor is `4k`, the buffer starts with this frame's batch, and from a zero count every drawn index addresses a vertex written this frame |
| Renderer.TwoCycles | src/Renderer2D.cpp:99-115 | from an unmapped buffer and a zero count, two full cycles with one submit each draw 6 and 6 indices; the second cycle's vertices replace the first's |
| Renderer.PresentTwice | src/Renderer2D.cpp:111-115 | a second present with no submit in between draws 0 indices |

## Left out

- OpenGL and graphics-API calls are not modelled: vertex-array and buffer creation, bind and unbind, attribute set-up, map and unmap. They are foreign calls with no visible semantics. `Begin` is modelled as resetting the cursor, and `End` as releasing write access.
- `_renderer->draw` is modelled as recording the index count it receives in `draws`. What the GPU does with the vertex array and index buffer is not modelled.
- The `reinterpret_cast` to `GLBuffer` and its discarded result are not modelled; they have no effect.
- Vertex coordinates and colours are `real`, so single-precision rounding in `pos.x + size.x` and `pos.y + size.y` is not captured.
- The debug counter `_debug_count`, the commented-out log and the debug-only unbind are not modelled; they are instrumentation only.
- The vertex-attribute layout (stride, colour offset `3 * sizeof(GLfloat)`) is not modelled. `AFW_RENDERER_VERTEX_SIZE` is defined in a header that is not part of this model, and these values only go to GL.
- A failing `glMapBuffer` (a null pointer) is not modelled; the code does not check for it. So `Begin` on an already mapped buffer is modelled as success; the end-to-end methods `RenderFrame` and `TwoCycles` start only from an unmapped buffer, so they never rely on it.
- Reads through the write-only mapping are not modelled. A `GL_WRITE_ONLY` map without an invalidate flag keeps the buffer's data; only reading through the mapped pointer is undefined, and the code never does so. The model therefore keeps the previous contents across `Begin`.
- Renderer.Renderer2D.Submit: does not model writing past the buffer's end when more than `MAX_SPRITES` quads are submitted in one cycle, because the code does not guard it; room for four vertices is a precondition.
- Renderer.Renderer2D.Present: `_count` is unbounded, so wrap-around after many cycles without `present` is not modelled. Its width is declared in a header that is not part of this model.
- IndexPattern.GenerateIndices: the array holds unbounded naturals rather than `uint`. `DefaultPatternFits` proves that no index or loop counter of the default configuration leaves the 32-bit range, so no conversion changes a value.
