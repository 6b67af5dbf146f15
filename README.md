# Batched rectangles over wgpu: a Dafny model

The program is a small wgpu/winit demo. It opens a window, negotiates a GPU
device and a presentation surface, chooses the surface configuration from the
surface's advertised capabilities, builds one batched mesh from five
compiled-in rectangles, and draws that mesh on every redraw. A resize
reconfigures the surface. A close request or an Escape press ends the process.

This project models the logic in `src/main.rs` that is not GPU or window
plumbing:

- `MeshBuilder` (`mesh.dfy`): the loop in `State::new` that turns a rectangle list into one
  vertex list and one `u16` index list, plus `index_count`. Vertices are abstract: a
  vertex is the pair (rectangle number, template corner). The truncating
  `(i * 4) as u16` and `len() as u32` casts are written out in `Ints` (`ints.dfy`). The model also
  shows that the `u16` addition `base_idx[k] + off` can never overflow.
- `Surface` (`surface.dfy`): the format, present-mode and alpha-mode choice; the initial
  `SurfaceConfiguration`; the configuration after a resize.
- `Frame` (`frame.dfy`): one call of `render` as the trace of its calls into the graphics library and
  its error log, for each result of `get_current_texture`.
- `Renderer` (`state.dfy`): the class `State`. It holds the mutable `config`, the mesh and a ghost log
  of every library call and logged error. Its methods are `Resize` and `Render`.
- `Events` (`app.dfy`): `window_event` as the pure function `Dispatch` from (stored window id, state
  present, event window id, event) to an action, and the class `App`. `App` holds
  the optional state and performs the action. It also has `resumed` and
  `about_to_wait`.

Inputs from the outside world are parameters. These are the window id, the
surface capabilities, the window's inner size, and the result of
`get_current_texture`. `std::process::exit(0)` is modelled by the `exited`
flag. No method of `App` may be called after it is set, because the process
no longer exists.

Three facts about the code are worth stating plainly:

- Present-mode selection prefers exactly `Mailbox` and falls back to `Fifo` (src/main.rs:84-90).
- `about_to_wait` requests a redraw whenever the state exists, whatever event came before (src/main.rs:362-366).
- Every index is below the vertex count for every rectangle count (`IndicesInRange`). Past 16384
  rectangles the truncating cast at src/main.rs:133 makes rectangle 16384's triangles reuse rectangle 0's
  vertices (`OffsetWrapAliases`).

## Model

| member | source | states |
|---|---|---|
| Ints.Max1 | src/main.rs:97-98 | `x.max(1)` is at least 1 and at least `x`, and is `x` or 1 |
| Ints.TruncateU16 | src/main.rs:133 | `as u16` keeps the value when it fits and never increases it |
| Ints.TruncateU32 | src/main.rs:233 | `as u32` keeps the value when it fits and never increases it |
| MeshBuilder.Offset | src/main.rs:133 | the offset of rectangle `i` is a multiple of 4, at most 0xFFFC and at most `4i`, and equals `4i` when `4i` fits in 16 bits |
| MeshBuilder.IndexAt | src/main.rs:134-137 | `base_idx[k] + off` does not overflow `u16`, is at most `4i + 3`, and is `4i + base_idx[k]` when `4i` fits |
| MeshBuilder.BuildMesh | src/main.rs:123-138 | the loop produces exactly the batched vertex and index lists of the rectangle list, `4N` vertices and `6N` indices, and `index_count` is the truncated index length |
| MeshBuilder.BatchVertices | src/main.rs:126-131 | the vertex list after `N` rectangles holds four vertices per rectangle, `4N` in all |
| MeshBuilder.BatchIndices | src/main.rs:133-137 | the index list after `N` rectangles holds six indices per rectangle, `6N` in all |
| MeshBuilder.BatchVertexAt | src/main.rs:126-131 | vertex slot `j` is corner `j % 4` of rectangle `j / 4` |
| MeshBuilder.BatchIndexAt | src/main.rs:133-137 | index slot `j` is template entry `j % 6` of rectangle `j / 6` |
| MeshBuilder.IndexSlot | src/main.rs:133-137 | index slot `6i + k` is template entry `k` of rectangle `i` |
| MeshBuilder.IndicesInRange | src/main.rs:133-137 | every emitted index is below `4N`, for every `N` |
| MeshBuilder.RectangleIndices | src/main.rs:133-137 | when `4N <= 65536`, rectangle `i` owns index slots `6i..6i+6`, holding `[4i, 4i+1, 4i+2, 4i, 4i+2, 4i+3]` |
| MeshBuilder.RectangleVertices | src/main.rs:126-131 | rectangle `i` owns vertex slots `4i..4i+4`, holding its corners 0..3 in template order |
| MeshBuilder.TrianglesStayInRectangle | src/main.rs:126-137 | when `4N <= 65536`, index slot `j` names a vertex of rectangle `j / 6` |
| MeshBuilder.IndexWraps | src/main.rs:133 | the offset cast gives rectangle 16384 the same six indices as rectangle 0 |
| MeshBuilder.OffsetWrapAliases | src/main.rs:133 | with more than 16384 rectangles, the index slots of rectangle 16384 equal those of rectangle 0 |
| MeshBuilder.WrappedTrianglesLeaveRectangle | src/main.rs:133-137 | with more than 16384 rectangles, rectangle 16384's first index names a vertex of rectangle 0 |
| MeshBuilder.BuiltMeshWellFormed | src/main.rs:123-138 | the built mesh has whole triangles, only in-range indices, and a draw count equal to the index count whenever `6N < 2^32` |
| MeshBuilder.MeshFromCounts | src/main.rs:233 | `4N` vertices, `6N` indices below `4N` and `index_count = 6N` form a well-formed mesh |
| MeshBuilder.DemoMesh | src/main.rs:115-138 | the five compiled-in rectangles give 20 vertices, 30 indices and a well-formed mesh with count 30 |
| Surface.FindSrgb | src/main.rs:78-81 | the search finds nothing exactly when no format is sRGB, and otherwise returns the first sRGB format in list order |
| Surface.SelectFormat | src/main.rs:78-82 | the chosen format is listed; it is the first sRGB format when there is one, otherwise `formats[0]` |
| Surface.SelectPresentMode | src/main.rs:84-90 | the present mode is `Mailbox` exactly when `Mailbox` is advertised, and `Fifo` otherwise |
| Surface.PresentModeExamples | src/main.rs:84-90 | {Mailbox, Fifo} gives Mailbox; {Fifo} gives Fifo |
| Surface.FormatExamples | src/main.rs:78-82 | an sRGB format after a non-sRGB one is chosen; with no sRGB format the first one is |
| Surface.InitialConfig | src/main.rs:78-103 | the initial configuration has width and height at least 1 (the window size, or 1 for 0). Its format is listed: the first sRGB format if there is one, otherwise `formats[0]`. Its present mode is `Mailbox` exactly when advertised, otherwise `Fifo`. It has `alpha_modes[0]`, render-attachment usage, no view formats and latency 2 |
| Surface.InitialConfigAdvertised | src/main.rs:78-103 | when the surface advertises Fifo, the initial configuration uses only advertised format, present mode and alpha mode |
| Surface.ResizedConfig | src/main.rs:238-240 | a resize sets width and height to the clamped new size and leaves every other field unchanged |
| Surface.ResizedAdvertised | src/main.rs:238-240 | a resize keeps the configuration within the advertised capabilities |
| Surface.ResizeExamples | src/main.rs:238-240 | `resize(0, 0)` gives 1 x 1; `resize(800, 600)` gives 800 x 600 |
| Frame.RenderTrace | src/main.rs:244-301 | a failed acquisition gives at most one call and no draw, submit or present; a successful one submits and presents and does not reconfigure |
| Frame.RenderLost | src/main.rs:247-250 | on `Lost` the only call configures the surface with the current configuration; nothing is drawn, submitted or presented |
| Frame.RenderOutdated | src/main.rs:251 | on `Outdated` no call is made |
| Frame.RenderOtherError | src/main.rs:252-255 | on any other error the only call is logging that error |
| Frame.RenderAcquired | src/main.rs:258-301 | on success there is exactly one draw, over `0..index_count` with one instance; after it exactly one submit; after that exactly one present, the last call; and no reconfiguration |
| Frame.PresentIffAcquired | src/main.rs:245-301 | a frame is submitted and presented exactly when a texture was acquired, and a present always follows a submit |
| Renderer.State.constructor | src/main.rs:76-138 | the new state holds the initial configuration, has configured the surface exactly once, and holds the mesh of the five rectangles with `index_count` 30 |
| Renderer.State.Resize | src/main.rs:238-242 | `width = max(w, 1)` and `height = max(h, 1)`, nothing else in the configuration changes, and exactly one configure is issued |
| Renderer.State.Render | src/main.rs:244-301 | the configuration is unchanged and the calls issued are exactly the frame trace for the acquisition result |
| Renderer.DrawCoversMesh | src/main.rs:297 | for a well-formed mesh the frame's draw spans the whole index list |
| Events.Dispatch | src/main.rs:339-359 | events for another window, and all events before the state exists, are ignored; a resize action only comes from `Resized` and carries its size |
| Events.DispatchRoutes | src/main.rs:346-348 | for the own window with state, `Resized` resizes to the event's size and `RedrawRequested` renders, and no other event does either |
| Events.DispatchExit | src/main.rs:349-358 | the handler exits exactly on `CloseRequested` or a pressed Escape for its own window with state; a released key is ignored |
| Events.App.constructor | src/main.rs:312-318 | the application starts with no state and no window id |
| Events.App.Resumed | src/main.rs:322-331 | the window id is stored and a fresh state is created. It has the given capabilities, the initial configuration, one configure call, and the mesh of the five rectangles with `index_count` 30 |
| Events.App.HandleWindowEvent | src/main.rs:339-359 | the action is the dispatch of the event. A resize updates the configuration and configures once. A render issues the frame trace. Exit sets the exit flag. Anything else changes nothing |
| Events.App.AboutToWait | src/main.rs:362-366 | while the process runs, a redraw is requested exactly when the state exists |

## Left out

- Vertex positions `cx + v.pos[0] * hw` and `cy + v.pos[1] * hh` (src/main.rs:106-111, 129): `f32` arithmetic. A vertex is the pair (rectangle, corner) and its position is not computed.
- Instance, adapter and device negotiation (src/main.rs:44-74) with its `.expect` panics: asynchronous foreign calls. The surface capabilities they yield are a parameter. The panics on an empty format or alpha-mode list are preconditions.
- Buffer creation with `create_buffer_init` and `bytemuck::cast_slice` (src/main.rs:140-154), and the vertex layout (src/main.rs:15-24): foreign calls and memory layout. The mesh value stands for both buffers.
- The shader source, the pipeline and pipeline layout, and the contents of the render-pass descriptor (src/main.rs:156-222, 269-292): fixed GPU configuration with floating-point colours. They appear in the trace only as the calls `BeginRenderPass`, `SetPipeline`, `SetVertexBuffer(0)` and `SetIndexBuffer`.
- Window creation, `EventLoop::run_app`, `request_redraw` and `std::process::exit` (src/main.rs:322-331, 349, 357, 364, 370-374): OS and window plumbing. Exit is the `Exit` action plus the `exited` flag. A redraw request is the result of `AboutToWait`.
- The `usize` multiplication `i * 4` is treated as exact. It could only overflow for a rectangle list far larger than memory.
- Window events other than resize, redraw, close and keyboard input are one `OtherEvent` case. Key codes other than Escape are one `OtherKey` case. Both are ignored by the program.
- Texture formats are reduced to an identifying number and their sRGB flag. Nothing else about a format affects the program.
