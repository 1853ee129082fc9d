/**
  The slice of the OpenGL API that the wrapper types drive, modelled as data.

  Every GL call the wrappers make is an emitted `GlCall` record, and the
  binding state those calls touch is a `GlState` value. `Apply` gives the
  effect of one call on that state and `Run` the effect of a whole trace.
  Device handles are plain numbers handed in from outside: the model never
  allocates anything itself.
 */
module Gl {

  /** Rust's `u32`. */
  const U32_MODULUS: int := 0x1_0000_0000
  const U32_MAX: int := 0xFFFF_FFFF
  type u32 = x: int | 0 <= x < 0x1_0000_0000

  /** Rust's `i32`. */
  type i32 = x: int | -0x8000_0000 <= x < 0x8000_0000

  /** A device object name; zero is the "allocation failed" sentinel. */
  type Handle = h: u32 | h != 0 witness 1

  /** The `as i32` cast on a `u32`: same bits, read as two's complement. */
  function AsI32(x: u32): (r: i32)
    ensures x < 0x8000_0000 ==> r == x
    ensures x >= 0x8000_0000 ==> r < 0
    ensures r % U32_MODULUS == x
  {
    if x < 0x8000_0000 then x else x - U32_MODULUS
  }

  /** The `as u32` cast on an `i32`, the inverse of `AsI32`. */
  function AsU32(x: i32): (r: u32)
    ensures r % U32_MODULUS == x % U32_MODULUS
  {
    if x < 0 then x + U32_MODULUS else x
  }

  lemma AsI32RoundTrip(x: u32)
    ensures AsU32(AsI32(x)) == x
  {
  }

  /** The `as u32` cast on a `usize` length: keep the low 32 bits. */
  function TruncateU32(n: nat): (r: u32)
    ensures n < U32_MODULUS ==> r == n
    ensures (n - r) % U32_MODULUS == 0
  {
    n % U32_MODULUS
  }

  // GL enumerants used by the wrappers (values from the GL headers).
  const GL_FALSE: u32 := 0
  const GL_TRUE: u32 := 1
  const GL_TRIANGLES: u32 := 0x0004
  const GL_UNSIGNED_INT: u32 := 0x1405
  const GL_FLOAT: u32 := 0x1406
  const GL_COLOR_BUFFER_BIT: u32 := 0x4000
  const GL_ARRAY_BUFFER: u32 := 0x8892
  const GL_ELEMENT_ARRAY_BUFFER: u32 := 0x8893
  const GL_STATIC_DRAW: u32 := 0x88E4

  /** The two buffer binding points the wrappers use. */
  datatype BufferTarget = ArrayBuffer | ElementArrayBuffer

  function TargetEnum(t: BufferTarget): (e: u32)
    ensures e == GL_ARRAY_BUFFER || e == GL_ELEMENT_ARRAY_BUFFER
  {
    match t
    case ArrayBuffer => GL_ARRAY_BUFFER
    case ElementArrayBuffer => GL_ELEMENT_ARRAY_BUFFER
  }

  /** The arguments of one `glVertexAttribPointer` call. */
  datatype AttribPointer = AttribPointer(
    location: nat,
    size: i32,
    componentType: u32,
    normalized: u32,
    stride: i32,
    offset: u32)

  /** One GL call, as emitted by the wrappers. */
  datatype GlCall =
    | GenVertexArrays(vao: u32)
    | BindVertexArray(vao: u32)
    | GenBuffers(buffer: u32)
    | BindBuffer(target: BufferTarget, buffer: u32)
    | BufferData(target: BufferTarget, byteSize: nat, usage: u32)
    | VertexAttribPointer(pointer: AttribPointer)
    | EnableVertexAttribArray(location: nat)
    | UseProgram(program: u32)
    | BindTextures(owner: u32)
    | UnbindTextures(owner: u32)
    | DrawElements(mode: u32, count: i32, indexType: u32)
    | Clear(mask: u32)

  /** An attribute slot of a vertex array: the pointer and the array buffer bound when it was set. */
  datatype AttribBinding = AttribBinding(pointer: AttribPointer, buffer: u32)

  /** The state a vertex array object captures. */
  datatype VaoState = VaoState(
    elementBuffer: u32,
    attribs: map<nat, AttribBinding>,
    enabled: set<nat>)

  const EmptyVao: VaoState := VaoState(0, map[], {})

  /**
    The binding state of one context. The element-array binding and the
    attribute slots belong to the bound vertex array (name 0 stands for the
    context's default one), as in the GL; the rest is global.
   */
  datatype GlState = GlState(
    program: u32,
    vao: u32,
    arrayBuffer: u32,
    vaos: map<u32, VaoState>,
    texturesBound: bool,
    maxVertexAttribs: nat)

  /** The least `GL_MAX_VERTEX_ATTRIBS` an OpenGL 3.3 context may report. */
  const MIN_MAX_VERTEX_ATTRIBS: nat := 16

  function VaoOf(s: GlState, name: u32): (v: VaoState)
    ensures name !in s.vaos ==> v == EmptyVao
  {
    if name in s.vaos then s.vaos[name] else EmptyVao
  }

  /**
    `t` differs from `s` at most in the state of vertex array `name`: every
    global binding and every other vertex array is as it was.
   */
  ghost predicate SameExceptVao(s: GlState, t: GlState, name: u32)
  {
    && t.program == s.program
    && t.vao == s.vao
    && t.arrayBuffer == s.arrayBuffer
    && t.texturesBound == s.texturesBound
    && t.maxVertexAttribs == s.maxVertexAttribs
    && forall n :: n != name ==> VaoOf(t, n) == VaoOf(s, n)
  }

  /**
    The argument checks of `glVertexAttribPointer` (section 2.8 of the
    OpenGL 3.3 core profile specification): the location must be below the
    context's attribute limit, the size one of 1 to 4 and the stride
    non-negative. A failed check is a `GL_INVALID_VALUE` error.
   */
  predicate PointerFits(p: AttribPointer, maxAttribs: nat)
  {
    && p.location < maxAttribs
    && 1 <= p.size <= 4
    && p.stride >= 0
  }

  /**
    Whether the context accepts a `glVertexAttribPointer` call: besides the
    argument checks, the core profile (appendix E.2.2 of the same
    specification) refuses it with `GL_INVALID_OPERATION` when no vertex
    array or no array buffer is bound.
   */
  predicate PointerAccepted(s: GlState, p: AttribPointer)
  {
    s.vao != 0 && s.arrayBuffer != 0 && PointerFits(p, s.maxVertexAttribs)
  }

  /** Whether the context accepts `glEnableVertexAttribArray(location)`. */
  predicate EnableAccepted(s: GlState, location: nat)
  {
    s.vao != 0 && location < s.maxVertexAttribs
  }

  /**
    The effect of one call on the binding state. A call the context
    refuses records an error and has no other effect, so it leaves the
    state as it was.
   */
  function Apply(s: GlState, c: GlCall): GlState
  {
    match c
    case GenVertexArrays(name) => s.(vaos := s.vaos[name := EmptyVao])
    case BindVertexArray(name) => s.(vao := name)
    case GenBuffers(_) => s
    case BindBuffer(ArrayBuffer, b) => s.(arrayBuffer := b)
    case BindBuffer(ElementArrayBuffer, b) =>
      s.(vaos := s.vaos[s.vao := VaoOf(s, s.vao).(elementBuffer := b)])
    case BufferData(_, _, _) => s
    case VertexAttribPointer(p) =>
      if !PointerAccepted(s, p) then s
      else
        var v := VaoOf(s, s.vao);
        s.(vaos := s.vaos[s.vao := v.(attribs := v.attribs[p.location := AttribBinding(p, s.arrayBuffer)])])
    case EnableVertexAttribArray(loc) =>
      if !EnableAccepted(s, loc) then s
      else
        var v := VaoOf(s, s.vao);
        s.(vaos := s.vaos[s.vao := v.(enabled := v.enabled + {loc})])
    case UseProgram(p) => s.(program := p)
    case BindTextures(_) => s.(texturesBound := true)
    case UnbindTextures(_) => s.(texturesBound := false)
    case DrawElements(_, _, _) => s
    case Clear(_) => s
  }

  /** The effect of a trace, first call first. */
  function Run(s: GlState, calls: seq<GlCall>): GlState
    decreases |calls|
  {
    if |calls| == 0 then s else Run(Apply(s, calls[0]), calls[1..])
  }

  /** Running two traces one after the other is running their concatenation. */
  lemma {:induction false} RunAppend(s: GlState, a: seq<GlCall>, b: seq<GlCall>)
    ensures Run(s, a + b) == Run(Run(s, a), b)
    decreases |a|
  {
    if |a| == 0 {
      assert a + b == b;
    } else {
      assert (a + b)[1..] == a[1..] + b;
      RunAppend(Apply(s, a[0]), a[1..], b);
    }
  }

  /** A trace of one call has exactly that call's effect. */
  lemma RunSingle(s: GlState, c: GlCall)
    ensures Run(s, [c]) == Apply(s, c)
  {
    assert [c][1..] == [];
  }

  /** Appending one call to a trace applies that call to the trace's end state. */
  lemma RunSnoc(s: GlState, a: seq<GlCall>, c: GlCall)
    ensures Run(s, a + [c]) == Apply(Run(s, a), c)
  {
    RunAppend(s, a, [c]);
    RunSingle(Run(s, a), c);
  }

  /** Why a wrapper constructor panics. */
  datatype Panic =
    | EmptyIndices
    | NullHandle(object: GlObject)
    | StrideOverflow

  datatype GlObject = VertexArrayObject | BufferObject

  datatype Result<T> = Ok(value: T) | Err(error: Panic)

  datatype Option<T> = None | Some(value: T)

  /** A constructed wrapper together with the GL calls its constructor made. */
  datatype Built<T> = Built(value: T, calls: seq<GlCall>)
}
