/**
  `ElementBuffer`: uploads the index array to a GL element-array buffer
  and remembers how many indices it holds, for the later draw call.
 */
module ElementBuffers {
  import opened Gl

  /** A constructed element buffer: its (non-zero) name and its index count. */
  datatype ElementBuffer = ElementBuffer(id: Handle, numIndices: u32)

  /** Byte size of one `u32` index, `size_of_val(&indices[0])`. */
  const INDEX_SIZE: nat := 4

  /**
    `ElementBuffer::new`, given the name the device hands out for the new
    buffer. An empty index slice panics before anything reaches the device,
    and a zero name panics right after it is generated.
   */
  function New(indices: seq<u32>, id: u32): (r: Result<Built<ElementBuffer>>)
    ensures r.Ok? <==> |indices| > 0 && id != 0
    ensures |indices| == 0 ==> r == Err(EmptyIndices)
    ensures |indices| > 0 && id == 0 ==> r == Err(NullHandle(BufferObject))
    ensures r.Ok? ==> r.value.value.id == id
    ensures r.Ok? && |indices| < U32_MODULUS ==> r.value.value.numIndices == |indices|
  {
    if |indices| == 0 then Err(EmptyIndices)
    else if id == 0 then Err(NullHandle(BufferObject))
    else
      var numIndices := TruncateU32(|indices|);
      var size := |indices| * INDEX_SIZE;
      Ok(Built(ElementBuffer(id, numIndices), [
        GenBuffers(id),
        BindBuffer(ElementArrayBuffer, id),
        BufferData(ElementArrayBuffer, size, GL_STATIC_DRAW),
        BindBuffer(ElementArrayBuffer, 0)
      ]))
  }

  /**
    What construction does to the binding state: the whole index array (4
    bytes per index) is uploaded while the new buffer is bound to the
    element-array target, and that binding is reset to 0 afterwards, so
    the only lasting change is the cleared element-array binding.
   */
  lemma NewUploadsAndUnbinds(indices: seq<u32>, id: u32, s: GlState)
    requires New(indices, id).Ok?
    ensures var calls := New(indices, id).value.calls;
      && |calls| == 4
      && calls[2] == BufferData(ElementArrayBuffer, 4 * |indices|, GL_STATIC_DRAW)
      && VaoOf(Run(s, calls[..2]), s.vao).elementBuffer == id
      && Run(s, calls) == s.(vaos := s.vaos[s.vao := VaoOf(s, s.vao).(elementBuffer := 0)])
  {
    var calls := New(indices, id).value.calls;
    assert calls[..2] == [calls[0]] + [calls[1]];
    RunAppend(s, [calls[0]], [calls[1]]);
    RunSingle(s, calls[0]);
    RunSingle(Apply(s, calls[0]), calls[1]);
    assert calls == calls[..2] + [calls[2]] + [calls[3]];
    RunSnoc(s, calls[..2], calls[2]);
    RunSnoc(s, calls[..2] + [calls[2]], calls[3]);
  }

  /**
    The calls `new` makes as written, whether or not it panics: nothing
    before the empty-slice panic, and the generation of the zero name
    before the null-name panic.
   */
  function CallsMade(indices: seq<u32>, id: u32): (calls: seq<GlCall>)
    ensures New(indices, id).Ok? ==> calls == New(indices, id).value.calls
    ensures New(indices, id).Err? ==> |calls| <= 1 && (|calls| == 1 <==> |indices| > 0)
    ensures forall i :: 0 <= i < |calls| ==> calls[i].GenBuffers? ==> calls[i].buffer == id
  {
    if |indices| == 0 then []
    else if id == 0 then [GenBuffers(id)]
    else New(indices, id).value.calls
  }

  /** `bind`: make this buffer the element-array binding. */
  function Bind(eb: ElementBuffer): GlCall
  {
    BindBuffer(ElementArrayBuffer, eb.id)
  }

  /** `unbind`: clear the element-array binding. */
  function Unbind(eb: ElementBuffer): GlCall
  {
    BindBuffer(ElementArrayBuffer, 0)
  }

  /**
    The element-array binding belongs to the bound vertex array: `bind`
    records this buffer there and `unbind` clears it, and neither touches
    anything else.
   */
  lemma BindUnbindEffect(s: GlState, eb: ElementBuffer)
    ensures var t := Apply(s, Bind(eb));
      SameExceptVao(s, t, s.vao) && VaoOf(t, s.vao) == VaoOf(s, s.vao).(elementBuffer := eb.id)
    ensures var t := Apply(s, Unbind(eb));
      SameExceptVao(s, t, s.vao) && VaoOf(t, s.vao) == VaoOf(s, s.vao).(elementBuffer := 0)
  {
  }
}
