# Vertex layout, vertex array and draw protocol of opengl-sandbox

A Dafny model of the small data-driven core of the `opengl-sandbox`
tutorial wrappers (Rust, OpenGL):

- **`VertexBufferLayout`**: an append-only list of attribute descriptors,
  each with an element type (`F32` or `U32`, 4 bytes each), a component
  count, a normalized flag and a byte offset, plus a running stride. The
  model proves that offsets are prefix sums of the descriptors' byte sizes
  and the stride is the total. This holds after any sequence of `add`
  calls, and offsets never decrease.
- **`ElementBuffer`**: the index upload. It panics on an empty index slice
  and on a zero buffer name, and it records the index count.
- **`VertexArray`**: construction turns the layout into one
  `glVertexAttribPointer` and one `glEnableVertexAttribArray` per element.
  Element `i` goes to location `i`, with the layout's shared stride and its
  own offset, count, type and flag. The wrapper checks none of these
  arguments, so the model says which of them the GL accepts: element `i`
  gets an attribute slot exactly when its count is 1 to 4, `i` is below the
  context's attribute limit and the stride is below 2^31. Construction also
  records the index count used by later draws.
- **`Renderer::draw`**: a bind, draw, unbind protocol. The model shows that
  the draw requests exactly the recorded index count. The unbinds undo the
  binds in reverse order, and no program or vertex-array binding is left
  behind. Binding and unbinding the program's textures are opaque steps
  (see "Left out"), modelled only as a flag they set and clear.

Every GL call is an emitted record (`Gl.GlCall`). The binding state the
calls touch is a value (`Gl.GlState`): the current program, the current
vertex array, the array-buffer binding, a textures-bound flag, and, for each
vertex array, its element-array binding and its attribute slots (as in the
GL, those belong to the vertex array), plus the context's
`GL_MAX_VERTEX_ATTRIBS`. `Gl.Apply` and `Gl.Run` give the effect of one
call and of a trace. The windows ask for an OpenGL 3.3 core profile
context (src/window.rs:12-16), and `Gl.Apply` follows that profile for the
attribute calls. A `glVertexAttribPointer` is refused when no vertex array
or no array buffer is bound, or when its location, size or stride is out
of range (section 2.8 and appendix E.2.2 of the OpenGL 3.3 core profile
specification). A `glEnableVertexAttribArray` is refused without a vertex
array or beyond the attribute limit. A refused call leaves the state as
it was. Device object names are parameters. A
zero name, an empty index slice and a `u32` stride overflow are the
wrappers' panics, and they appear as `Err(Panic)` results.

The Rust integer casts are written out: `as i32` on a `u32` is a two's
complement reinterpretation (`Gl.AsI32`, inverted by `Gl.AsU32`), and
`len() as u32` keeps the low 32 bits (`Gl.TruncateU32`).

Files: `gl.dfy` (module `Gl`), `layouts.dfy` (`Layouts`),
`element_buffers.dfy` (`ElementBuffers`), `vertex_arrays.dfy`
(`VertexArrays`), `renderers.dfy` (`Renderers`).

`VertexArray::new` accepts an empty layout (src/vertex_array.rs:35-59
has no check for one) and then configures no attributes
(`VertexArrays.NewConfiguresVertexArray` with zero elements). `Renderer`
is an empty `Default` struct (src/renderer.rs:5-6): constructing it makes
no GL call.

A note on the source: `ElementBuffer::get_num_indices` takes `self` by
value (src/element_buffer.rs:33). So `ebo.bind()` right after it
(src/vertex_array.rs:22-23) uses a moved value and would not compile as
written. The model reads `get_num_indices` as a pure observer and keeps the
bind.

## Model

| member | source | states |
|---|---|---|
| Gl.AsI32 | src/vertex_array.rs:48 | the `as i32` cast keeps a count below 2^31 unchanged, turns larger ones negative, and preserves the value modulo 2^32 |
| Gl.TruncateU32 | src/element_buffer.rs:14 | `len() as u32` equals the length whenever it is below 2^32 and otherwise differs from it by a multiple of 2^32 |
| Layouts.SizeOf | src/vertex_buffer_layout.rs:17-23 | both layout types have a component size of 4 bytes |
| Layouts.TypeEnum | src/vertex_buffer_layout.rs:5-8 | the discriminant `layout_type as u32` is `GL_FLOAT` exactly for `F32` and `GL_UNSIGNED_INT` exactly for `U32` |
| Layouts.TypeOfEnum | src/vertex_buffer_layout.rs:3-8 | the GL enum of a layout type (`FLOAT` or `UNSIGNED_INT`) identifies it uniquely: reading it back gives that type, and no other enum value reads back as a layout type |
| Layouts.Default | src/vertex_buffer_layout.rs:26-30 | the default layout has no elements and stride 0, and satisfies the layout invariant |
| Layouts.Add | src/vertex_buffer_layout.rs:33-43 | `add` succeeds exactly when the new stride fits in a `u32`. It appends exactly one element at the end and leaves the earlier ones unchanged. The new element stores type, count and flag as passed, with the old stride as offset, and the stride grows by count times the component size |
| Layouts.AddPreservesValid | src/vertex_buffer_layout.rs:34-42 | `add` keeps the invariant: every offset is the byte size of the elements before it, and the stride is the byte size of all of them |
| Layouts.ValidElementsAreContiguous | src/vertex_buffer_layout.rs:38-41 | in a valid layout each element starts where the previous one ends, and the last one ends at the stride |
| Layouts.ValidOffsetsMonotone | src/vertex_buffer_layout.rs:38-41 | in a valid layout offsets never decrease, and every element lies inside the stride |
| Layouts.Build | src/vertex_buffer_layout.rs:33-43 | a sequence of `add` calls on a default layout: on success one element per call, otherwise the stride-overflow panic. `Layouts.BuildSucceedsIff`, `Layouts.BuildValid` and `Layouts.BuildElements` state the rest |
| Layouts.BuildSucceedsIff | src/vertex_buffer_layout.rs:33-43 | a sequence of `add` calls on a default layout succeeds exactly when 4 times the total component count fits in a `u32`. It then has one element per call and stride 4 times the total count; otherwise it panics with a stride overflow |
| Layouts.BuildValid | src/vertex_buffer_layout.rs:33-43 | any layout built by `add` calls satisfies the prefix-sum invariant |
| Layouts.BuildElements | src/vertex_buffer_layout.rs:33-43 | the k-th element of a built layout carries the k-th call's type, count and flag, and its offset is 4 times the component count of the first k calls |
| ElementBuffers.New | src/element_buffer.rs:10-35 | construction succeeds exactly when the index slice is non-empty and the buffer name is non-zero. An empty slice panics first, then a zero name. The buffer keeps the name and records the slice length as its index count |
| ElementBuffers.NewUploadsAndUnbinds | src/element_buffer.rs:13-28 | the upload is 4 bytes per index, made while the new buffer is the element-array binding. That binding is reset to 0 afterwards, and that is the only lasting state change |
| ElementBuffers.CallsMade | src/element_buffer.rs:10-20 | the calls `new` makes as written: the full trace when it succeeds, nothing before the empty-slice panic, and only the generation of the name before the zero-name panic |
| ElementBuffers.Bind | src/element_buffer.rs:37-39 | `bind`; its effect is stated by `ElementBuffers.BindUnbindEffect` |
| ElementBuffers.Unbind | src/element_buffer.rs:41-43 | `unbind`; its effect is stated by `ElementBuffers.BindUnbindEffect` |
| ElementBuffers.BindUnbindEffect | src/element_buffer.rs:37-43 | `bind` sets the bound vertex array's element-array binding to this buffer, `unbind` sets it to 0, and nothing else changes |
| VertexArrays.NormalizedEnum | src/vertex_array.rs:40-43 | the normalized flag maps to `GL_TRUE` exactly when it is true and to `GL_FALSE` exactly when it is false |
| VertexArrays.AttribPointers | src/vertex_array.rs:39-53 | one attribute pointer per layout element, in order: pointer i is at location i, has element i's offset, and its stride reads back as the layout's stride. `VertexArrays.PointersRoundTrip` states that decoding it gives element i back |
| VertexArrays.DecodePointer | src/vertex_array.rs:46-53 | a decoded attribute pointer has a layout type whose GL enum is the pointer's component type |
| VertexArrays.PointersRoundTrip | src/vertex_array.rs:35-59 | attribute i is at location i and uses the layout's stride. Decoding it gives back element i: offset, count, type and flag pass through unchanged. Count and stride equal the `i32` GL values whenever they are below 2^31 |
| VertexArrays.BuiltLayoutPointers | src/vertex_array.rs:35-59 | for a layout made by `add` calls, attribute pointer i depends only on the call arguments: location i, the i-th count, type and flag, the total byte size as stride, and the byte size of the earlier calls as offset |
| VertexArrays.LayoutCallsShape | src/vertex_array.rs:39-58 | the layout calls alternate: call 2i sets pointer i and call 2i+1 enables that pointer's location, with exactly two calls per pointer |
| VertexArrays.AddLayouts | src/vertex_array.rs:35-59 | the loop with a location counter from 0 emits exactly two calls per element: the i-th attribute pointer, then the enabling of location i |
| VertexArrays.RunLayoutCalls | src/vertex_array.rs:45-55 | with a vertex array bound, running the layout calls stores pointer i, with the bound array buffer, in slot i exactly when the GL accepts that pointer, and enables every location below the attribute limit. Nothing else changes. With no vertex array bound, every call is refused and the state is unchanged |
| VertexArrays.SlotConfiguredIff | src/vertex_array.rs:46-54 | element i gets a slot exactly when a vertex buffer is bound, i is below the attribute limit, its count is 1 to 4 and the stride is below 2^31. The slot then holds pointer i |
| VertexArrays.EveryElementConfigured | src/vertex_array.rs:39-58 | a layout within those limits gets exactly one enabled slot per element, slot i holding pointer i |
| VertexArrays.OversizedCountIsRefused | src/vertex_array.rs:46-54 | the counts pass through unchecked: an element of 5 floats gets no slot, yet its location is still enabled |
| VertexArrays.VertexBufferCalls | src/vertex_buffer.rs:8-23 | `VertexBuffer::new`: generate, bind to `ARRAY_BUFFER`, upload; its effect is stated by `VertexArrays.RunVertexBufferCalls` |
| VertexArrays.RunVertexBufferCalls | src/vertex_buffer.rs:8-23 | creating the vertex buffer uploads the given byte count and leaves that buffer bound to the array-buffer target; nothing else changes |
| VertexArrays.New | src/vertex_array.rs:13-33 | construction succeeds exactly when the vertex-array name is non-zero, the indices are non-empty and the buffer name is non-zero, and the panics come in that order. The vertex array keeps its name and records the index-slice length |
| VertexArrays.NewConfiguresVertexArray | src/vertex_array.rs:13-33 | from any state, construction ends with no vertex array and no array buffer bound, and program and textures untouched. The new vertex array holds the element buffer and the slots the GL accepts, each reading the new vertex buffer. The locations below the attribute limit are enabled. Other vertex arrays are unchanged |
| VertexArrays.CallsMade | src/vertex_array.rs:13-33 | the calls `new` makes as written: the full trace when it succeeds, and otherwise the calls up to the panic |
| VertexArrays.PanicLeavesVertexArrayBound | src/vertex_array.rs:16-21 | the vertex array is generated and bound before the element buffer's checks. When those panic, the new empty vertex array stays bound, and nothing else has changed |
| VertexArrays.NumIndicesToDraw | src/vertex_array.rs:61-63 | the count a vertex array hands to draws is its element buffer's count, which is the length of the index slice |
| VertexArrays.Bind | src/vertex_array.rs:65-67 | `bind`; its effect is stated by `VertexArrays.BindUnbindEffect` |
| VertexArrays.Unbind | src/vertex_array.rs:69-71 | `unbind`; its effect is stated by `VertexArrays.BindUnbindEffect` |
| VertexArrays.BindUnbindEffect | src/vertex_array.rs:65-71 | `bind` makes this vertex array current, `unbind` resets the current vertex array to 0, and nothing else changes |
| Renderers.BindProgram | src/program.rs:39-41 | `Program::bind`; its effect is stated by `Renderers.ProgramBindUnbindEffect` |
| Renderers.UnbindProgram | src/program.rs:43-45 | `Program::unbind`; its effect is stated by `Renderers.ProgramBindUnbindEffect` |
| Renderers.ProgramBindUnbindEffect | src/program.rs:39-45 | `bind` makes the program current, `unbind` makes no program current, and nothing else changes |
| Renderers.Draw | src/renderer.rs:13-32 | the calls `draw` makes. `Renderers.DrawIsBracketed`, `Renderers.DrawRequestsRecordedCount` and `Renderers.DrawLeavesNoBinding` state its contract |
| Renderers.ClearKeepsBindings | src/renderer.rs:9-11 | `clear` clears the colour buffer and changes no binding |
| Renderers.DrawIsBracketed | src/renderer.rs:13-32 | `draw` makes exactly one draw call. Before it, the program, its textures and the vertex array are bound in that order; after it, the unbinds undo those binds in exactly the reverse order |
| Renderers.DrawRequestsRecordedCount | src/renderer.rs:14-27 | the draw is a `TRIANGLES` draw of `UNSIGNED_INT` indices that requests the vertex array's recorded count. It is the count itself when below 2^31, and `as i32` of it in general. It is non-negative, as the GL requires, exactly when the count is below 2^31 |
| Renderers.DrawLeavesNoBinding | src/renderer.rs:16-31 | at the draw call the program and the vertex array are bound, and the textures-bound flag is set. After `draw`, from any starting state, no program or vertex array is bound, the flag that the opaque texture-unbind step clears is false, and nothing else changed |
| Renderers.DrawCountIsIndexCount | src/renderer.rs:13-27 | drawing a vertex array built from an index slice requests exactly as many indices as the slice holds (below 2^31), whatever the layout and vertex data |

## Left out

- Window and context creation, the event loop and the time query (src/window.rs, src/bin/*): I/O plumbing. The tutorial programs are callers, not core.
- Shader compilation and program linking (src/shader.rs, src/program.rs): the GPU driver does the work. A program appears only as a non-zero name with its bind and unbind calls.
- Texture loading (src/texture.rs): image decoding and uploads are foreign calls. `bind_textures`/`unbind_textures` are not defined in src/program.rs. They are opaque trace steps that set and clear a textures-bound flag.
- Vertex data upload (src/vertex_buffer.rs): its byte size is a parameter. `size_of_val(&vertices)` measures the slice reference, not the data. That file has no handle check, and neither does the model.
- `Drop` impls: deleting device objects is a GL side effect and is not modelled. In particular the locals `ebo` and `vbo` are dropped when `VertexArray::new` returns (src/vertex_array.rs:33). Their names are deleted then, although `VertexArrays.NewConfiguresVertexArray` shows the vertex array still recording them.
- `VertexBufferLayout::new(type, count, normalized)`, which the tutorial programs call, is not defined in src/vertex_buffer_layout.rs and is not part of this model. The model starts from `Default` and `add`.
- Gl.Apply: only the GL errors that the attribute calls can raise here are modelled. The component type is always `FLOAT` or `UNSIGNED_INT`, which the GL accepts. Other GL errors are not modelled: binding a name that was never generated, or a draw with a negative count or with no vertex array bound. In the model those calls are accepted, and a draw changes no binding anyway. `glGetError` is never called by the source.
- Renderers.DrawLeavesNoBinding: the texture half is assumed of the opaque `unbind_textures` step. The visible `Texture::unbind` (src/texture.rs:62-64) resets only the active unit's `TEXTURE_2D` binding. A program with textures in two units (src/bin/10-rectangle-with-two-textures.rs:43-46) may keep one bound.
- Float vertex data, colour uniforms and matrix maths: floating point and an external linear-algebra library.
- Layouts.Add: a `u32` overflow of `stride += count * size` is the debug-build panic (`Err(StrideOverflow)`). The release-build wrap-around is not modelled.
- VertexArrays.AddLayouts: the `u32` location counter is an unbounded `nat`. It could only wrap with 2^32 layout elements.
- ElementBuffers.New: the `usize` product `len() * 4` is not bounded. It cannot overflow for a slice that fits in memory.
- On a panic, `New` returns only the reason. The calls made before the panic are given separately by `ElementBuffers.CallsMade` and `VertexArrays.CallsMade`.
- `get_stride` and `get_layouts` are the `stride` and `elements` fields of the immutable `Layouts.Layout` value. They need no operation of their own.
