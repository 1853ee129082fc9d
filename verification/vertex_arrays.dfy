/**
  `VertexArray`: one drawable unit made of a vertex array object, an
  element buffer and a vertex buffer, configured once from a layout.

  The layout becomes one `glVertexAttribPointer` plus one
  `glEnableVertexAttribArray` per element (`AttribPointers`,
  `LayoutCalls`, and the loop `AddLayouts`). Running those calls leaves the
  vertex array with one attribute slot per element the GL accepts; for
  layouts within the GL's limits that is exactly one per element.
 */
module VertexArrays {
  import opened Gl
  import opened Layouts
  import ElementBuffers

  /** A constructed vertex array: its (non-zero) name and the index count for draws. */
  datatype VertexArray = VertexArray(id: Handle, numIndices: u32)

  /** The names the device hands out to `new`, in the order it asks for them. */
  datatype Handles = Handles(vao: u32, ebo: u32, vbo: u32)

  /** `gl::TRUE` / `gl::FALSE` for the element's normalized flag. */
  function NormalizedEnum(b: bool): (r: u32)
    ensures r == GL_TRUE <==> b
    ensures r == GL_FALSE <==> !b
  {
    if b then GL_TRUE else GL_FALSE
  }

  /** The attribute pointer for one element at one location. */
  function PointerFor(e: Element, location: nat, stride: u32): AttribPointer
  {
    AttribPointer(location, AsI32(e.count), TypeEnum(e.layoutType), NormalizedEnum(e.normalized),
                  AsI32(stride), e.offset)
  }

  /** The attribute pointers `add_layouts` configures, one per element, in order. */
  function AttribPointers(l: Layout): (ps: seq<AttribPointer>)
    ensures |ps| == |l.elements|
    ensures forall i :: 0 <= i < |ps| ==>
      && ps[i].location == i
      && ps[i].offset == l.elements[i].offset
      && AsU32(ps[i].stride) == l.stride
  {
    seq(|l.elements|, i requires 0 <= i < |l.elements| => PointerFor(l.elements[i], i, l.stride))
  }

  /**
    Reads an attribute pointer back as a layout element; `None` for a
    component type or normalized flag the layout cannot produce.
   */
  function DecodePointer(p: AttribPointer): (r: Option<Element>)
    ensures r.Some? ==> TypeEnum(r.value.layoutType) == p.componentType
  {
    match TypeOfEnum(p.componentType)
    case None => None
    case Some(t) =>
      if p.normalized == GL_TRUE then Some(Element(t, AsU32(p.size), true, p.offset))
      else if p.normalized == GL_FALSE then Some(Element(t, AsU32(p.size), false, p.offset))
      else None
  }

  /**
    The i-th configured attribute sits at location i, uses the layout's
    stride, and carries the i-th element unchanged: decoding it gives the
    element back. Counts and the stride are cast to `i32`, so they read
    back unchanged as GL sizes whenever they are below 2^31.
   */
  lemma PointersRoundTrip(l: Layout, i: nat)
    requires i < |l.elements|
    ensures var p := AttribPointers(l)[i];
      && p.location == i
      && AsU32(p.stride) == l.stride
      && DecodePointer(p) == Some(l.elements[i])
      && (l.elements[i].count < 0x8000_0000 ==> p.size == l.elements[i].count)
      && (l.stride < 0x8000_0000 ==> p.stride == l.stride)
      && (p.normalized == GL_TRUE <==> l.elements[i].normalized)
  {
    var e := l.elements[i];
    AsI32RoundTrip(e.count);
    AsI32RoundTrip(l.stride);
    assert TypeOfEnum(TypeEnum(e.layoutType)) == Some(e.layoutType);
  }

  /**
    For a layout made by a sequence of `add` calls, the i-th attribute
    pointer is determined by the calls' arguments alone: location i, the
    i-th call's count, type and flag, the total byte size as stride, and as
    offset the byte size of the calls before it.
   */
  lemma {:induction false} BuiltLayoutPointers(attrs: seq<Attribute>, i: nat)
    requires 4 * SumCounts(attrs) <= U32_MAX
    requires i < |attrs|
    ensures Build(attrs).Ok?
    ensures SumCounts(attrs[..i]) <= SumCounts(attrs)
    ensures |AttribPointers(Build(attrs).value)| == |attrs|
    ensures AttribPointers(Build(attrs).value)[i] == AttribPointer(
      i, AsI32(attrs[i].count), TypeEnum(attrs[i].layoutType), NormalizedEnum(attrs[i].normalized),
      AsI32(4 * SumCounts(attrs)), 4 * SumCounts(attrs[..i]))
  {
    BuildSucceedsIff(attrs);
    BuildElements(attrs);
    SumCountsPrefix(attrs, i);
  }

  /** The calls `add_layouts` makes for a list of pointers: set, then enable, per pointer. */
  function LayoutCalls(ps: seq<AttribPointer>): seq<GlCall>
    decreases |ps|
  {
    if |ps| == 0 then []
    else
      var last := ps[|ps| - 1];
      LayoutCalls(ps[..|ps| - 1]) + [VertexAttribPointer(last), EnableVertexAttribArray(last.location)]
  }

  /** The layout calls alternate: call 2i sets pointer i, call 2i+1 enables its location. */
  lemma {:induction false} LayoutCallsShape(ps: seq<AttribPointer>)
    ensures |LayoutCalls(ps)| == 2 * |ps|
    ensures forall i :: 0 <= i < |ps| ==>
      && LayoutCalls(ps)[2 * i] == VertexAttribPointer(ps[i])
      && LayoutCalls(ps)[2 * i + 1] == EnableVertexAttribArray(ps[i].location)
    decreases |ps|
  {
    if |ps| > 0 {
      var m := |ps| - 1;
      LayoutCallsShape(ps[..m]);
      forall i | 0 <= i < |ps|
        ensures LayoutCalls(ps)[2 * i] == VertexAttribPointer(ps[i])
        ensures LayoutCalls(ps)[2 * i + 1] == EnableVertexAttribArray(ps[i].location)
      {
        if i < m {
          assert ps[..m][i] == ps[i];
        }
      }
    }
  }

  /**
    `add_layouts`: walks the layout's elements with a location counter
    starting at 0 and emits the pointer and enable calls for each.
   */
  method AddLayouts(l: Layout) returns (calls: seq<GlCall>)
    ensures calls == LayoutCalls(AttribPointers(l))
    ensures |calls| == 2 * |l.elements|
    ensures forall i :: 0 <= i < |l.elements| ==>
      && calls[2 * i] == VertexAttribPointer(AttribPointers(l)[i])
      && calls[2 * i + 1] == EnableVertexAttribArray(i)
  {
    var location: nat := 0;
    var stride := l.stride;
    var elements := l.elements;
    calls := [];
    while location < |elements|
      invariant location <= |elements|
      invariant calls == LayoutCalls(AttribPointers(l)[..location])
    {
      var e := elements[location];
      var normalized := if e.normalized then GL_TRUE else GL_FALSE;
      var p := AttribPointer(location, AsI32(e.count), TypeEnum(e.layoutType), normalized,
                             AsI32(stride), e.offset);
      assert AttribPointers(l)[..location + 1][..location] == AttribPointers(l)[..location];
      calls := calls + [VertexAttribPointer(p), EnableVertexAttribArray(location)];
      location := location + 1;
    }
    assert AttribPointers(l)[..location] == AttribPointers(l);
    LayoutCallsShape(AttribPointers(l));
  }

  /** Attribute slots `0 .. |ps|-1`, each holding its pointer and the given buffer. */
  function Slots(ps: seq<AttribPointer>, buffer: u32): map<nat, AttribBinding>
  {
    map i: nat | i < |ps| :: AttribBinding(ps[i], buffer)
  }

  /**
    The slots a bound vertex array ends up with when the pointers are set
    while `buffer` is the array buffer in a context allowing `maxAttribs`
    attributes: only the pointers the context accepts are stored.
   */
  function Configured(ps: seq<AttribPointer>, buffer: u32, maxAttribs: nat): map<nat, AttribBinding>
  {
    map i: nat | i < |ps| && buffer != 0 && PointerFits(ps[i], maxAttribs) :: AttribBinding(ps[i], buffer)
  }

  /** The locations `0 .. n-1`. */
  function Locations(n: nat): (r: set<nat>)
    ensures forall i :: i in r <==> 0 <= i < n
  {
    if n == 0 then {} else Locations(n - 1) + {n - 1}
  }

  function Min(a: nat, b: nat): (r: nat)
    ensures r <= a && r <= b && (r == a || r == b)
  {
    if a <= b then a else b
  }

  /**
    One pointer call followed by its enable call updates just that slot of
    the bound vertex array, each half only if the context accepts it; with
    no vertex array bound both are refused and nothing changes.
   */
  lemma RunPointerAndEnable(t: GlState, p: AttribPointer)
    ensures var u := Run(t, [VertexAttribPointer(p), EnableVertexAttribArray(p.location)]);
      && SameExceptVao(t, u, t.vao)
      && (t.vao == 0 ==> u == t)
      && VaoOf(u, t.vao) == VaoOf(t, t.vao).(
           attribs := if PointerAccepted(t, p)
             then VaoOf(t, t.vao).attribs[p.location := AttribBinding(p, t.arrayBuffer)]
             else VaoOf(t, t.vao).attribs,
           enabled := if EnableAccepted(t, p.location)
             then VaoOf(t, t.vao).enabled + {p.location}
             else VaoOf(t, t.vao).enabled)
  {
    assert [VertexAttribPointer(p), EnableVertexAttribArray(p.location)]
      == [VertexAttribPointer(p)] + [EnableVertexAttribArray(p.location)];
    RunSnoc(t, [VertexAttribPointer(p)], EnableVertexAttribArray(p.location));
    RunSingle(t, VertexAttribPointer(p));
  }

  /**
    Running the layout calls with a vertex array bound stores pointer i at
    slot i (with the bound array buffer) whenever the context accepts it,
    and enables every location below the context's attribute limit; it
    touches nothing but that vertex array's slots. With no vertex array
    bound every call is refused.
   */
  lemma RunLayoutCalls(s: GlState, ps: seq<AttribPointer>)
    requires forall i :: 0 <= i < |ps| ==> ps[i].location == i
    ensures var t := Run(s, LayoutCalls(ps));
      && SameExceptVao(s, t, s.vao)
      && (s.vao == 0 ==> t == s)
      && (s.vao != 0 ==> VaoOf(t, s.vao) == VaoOf(s, s.vao).(
           attribs := VaoOf(s, s.vao).attribs + Configured(ps, s.arrayBuffer, s.maxVertexAttribs),
           enabled := VaoOf(s, s.vao).enabled + Locations(Min(|ps|, s.maxVertexAttribs))))
  {
    if s.vao == 0 {
      RunLayoutCallsUnbound(s, ps);
    } else {
      RunLayoutCallsBound(s, ps);
    }
  }

  lemma {:induction false} RunLayoutCallsUnbound(s: GlState, ps: seq<AttribPointer>)
    requires s.vao == 0
    ensures Run(s, LayoutCalls(ps)) == s
    decreases |ps|
  {
    if |ps| > 0 {
      var m := |ps| - 1;
      var last := ps[m];
      RunLayoutCallsUnbound(s, ps[..m]);
      RunAppend(s, LayoutCalls(ps[..m]), [VertexAttribPointer(last), EnableVertexAttribArray(last.location)]);
      RunPointerAndEnable(s, last);
    }
  }

  lemma {:induction false} RunLayoutCallsBound(s: GlState, ps: seq<AttribPointer>)
    requires s.vao != 0
    requires forall i :: 0 <= i < |ps| ==> ps[i].location == i
    ensures var t := Run(s, LayoutCalls(ps));
      && SameExceptVao(s, t, s.vao)
      && VaoOf(t, s.vao) == VaoOf(s, s.vao).(
           attribs := VaoOf(s, s.vao).attribs + Configured(ps, s.arrayBuffer, s.maxVertexAttribs),
           enabled := VaoOf(s, s.vao).enabled + Locations(Min(|ps|, s.maxVertexAttribs)))
    decreases |ps|
  {
    var v := VaoOf(s, s.vao);
    var max := s.maxVertexAttribs;
    if |ps| == 0 {
      assert v.attribs + Configured(ps, s.arrayBuffer, max) == v.attribs;
      assert v.enabled + Locations(Min(0, max)) == v.enabled;
    } else {
      var m := |ps| - 1;
      var init := ps[..m];
      var last := ps[m];
      var pair := [VertexAttribPointer(last), EnableVertexAttribArray(last.location)];
      RunLayoutCallsBound(s, init);
      var t := Run(s, LayoutCalls(init));
      RunAppend(s, LayoutCalls(init), pair);
      RunPointerAndEnable(t, last);
      var u := Run(t, pair);
      assert u == Run(s, LayoutCalls(ps));
      assert PointerAccepted(t, last) <==> s.arrayBuffer != 0 && PointerFits(last, max);
      assert EnableAccepted(t, last.location) <==> m < max;
      SlotsStep(v, ps, s.arrayBuffer, max);
    }
  }

  /** The slot and location bookkeeping of one more pointer-and-enable pair. */
  lemma SlotsStep(v: VaoState, ps: seq<AttribPointer>, buffer: u32, maxAttribs: nat)
    requires |ps| > 0 && ps[|ps| - 1].location == |ps| - 1
    ensures var m := |ps| - 1;
      var attribs := v.attribs + Configured(ps[..m], buffer, maxAttribs);
      var enabled := v.enabled + Locations(Min(m, maxAttribs));
      && (if buffer != 0 && PointerFits(ps[m], maxAttribs)
          then attribs[ps[m].location := AttribBinding(ps[m], buffer)] else attribs)
         == v.attribs + Configured(ps, buffer, maxAttribs)
      && (if m < maxAttribs then enabled + {ps[m].location} else enabled)
         == v.enabled + Locations(Min(|ps|, maxAttribs))
  {
    ConfiguredSnoc(ps, buffer, maxAttribs);
    LocationsMinSnoc(|ps| - 1, maxAttribs);
  }

  /** Adding one pointer adds its slot exactly when the context accepts it. */
  lemma ConfiguredSnoc(ps: seq<AttribPointer>, buffer: u32, maxAttribs: nat)
    requires |ps| > 0
    ensures var m := |ps| - 1;
      Configured(ps, buffer, maxAttribs)
        == if buffer != 0 && PointerFits(ps[m], maxAttribs)
           then Configured(ps[..m], buffer, maxAttribs)[m := AttribBinding(ps[m], buffer)]
           else Configured(ps[..m], buffer, maxAttribs)
  {
  }

  lemma LocationsMinSnoc(m: nat, maxAttribs: nat)
    ensures Locations(Min(m + 1, maxAttribs))
      == if m < maxAttribs then Locations(Min(m, maxAttribs)) + {m} else Locations(Min(m, maxAttribs))
  {
  }

  /**
    Which layout elements get an attribute slot: element i does exactly
    when a vertex buffer is bound, i is below the attribute limit, its
    component count is 1 to 4, and the layout's stride is below 2^31 (a
    larger one turns negative under `as i32`). The slot then holds the
    element's pointer.
   */
  lemma SlotConfiguredIff(l: Layout, buffer: u32, maxAttribs: nat, i: nat)
    requires i < |l.elements|
    ensures i in Configured(AttribPointers(l), buffer, maxAttribs)
      <==> buffer != 0 && i < maxAttribs && 1 <= l.elements[i].count <= 4 && l.stride < 0x8000_0000
    ensures i in Configured(AttribPointers(l), buffer, maxAttribs)
      ==> Configured(AttribPointers(l), buffer, maxAttribs)[i] == AttribBinding(AttribPointers(l)[i], buffer)
  {
  }

  /**
    A layout of at most `maxAttribs` elements, each with 1 to 4 components
    and a stride below 2^31, read from a non-zero vertex buffer, gets one
    enabled slot per element, slot i holding pointer i.
   */
  lemma EveryElementConfigured(l: Layout, buffer: u32, maxAttribs: nat)
    requires buffer != 0
    requires |l.elements| <= maxAttribs
    requires forall i :: 0 <= i < |l.elements| ==> 1 <= l.elements[i].count <= 4
    requires l.stride < 0x8000_0000
    ensures Configured(AttribPointers(l), buffer, maxAttribs) == Slots(AttribPointers(l), buffer)
    ensures Locations(Min(|l.elements|, maxAttribs)) == Locations(|l.elements|)
  {
  }

  /**
    The source passes counts through unchecked: an element of 5 floats is
    refused by the GL, so its slot stays unset, although its location is
    still enabled.
   */
  lemma OversizedCountIsRefused(buffer: u32, maxAttribs: nat)
    requires buffer != 0 && maxAttribs >= 1
    ensures var l := Layout([Element(F32, 5, false, 0)], 20);
      && 0 !in Configured(AttribPointers(l), buffer, maxAttribs)
      && 0 in Locations(Min(|l.elements|, maxAttribs))
  {
  }

  /** `VertexBuffer::new` followed by nothing else: generate, bind, upload (no handle check there). */
  function VertexBufferCalls(vbo: u32, vertexBytes: nat): seq<GlCall>
  {
    [GenBuffers(vbo), BindBuffer(ArrayBuffer, vbo), BufferData(ArrayBuffer, vertexBytes, GL_STATIC_DRAW)]
  }

  /** Creating the vertex buffer leaves it bound to the array-buffer target and changes nothing else. */
  lemma RunVertexBufferCalls(s: GlState, vbo: u32, vertexBytes: nat)
    ensures VertexBufferCalls(vbo, vertexBytes)[2] == BufferData(ArrayBuffer, vertexBytes, GL_STATIC_DRAW)
    ensures Run(s, VertexBufferCalls(vbo, vertexBytes)) == s.(arrayBuffer := vbo)
  {
    var c := VertexBufferCalls(vbo, vertexBytes);
    assert c == [c[0]] + [c[1]] + [c[2]];
    RunSingle(s, c[0]);
    RunSnoc(s, [c[0]], c[1]);
    RunSnoc(s, [c[0]] + [c[1]], c[2]);
  }

  /** Generate and bind the vertex array, then build the element buffer while it is bound. */
  function SetupCalls(vao: u32, eboCalls: seq<GlCall>): seq<GlCall>
  {
    [GenVertexArrays(vao), BindVertexArray(vao)] + eboCalls
  }

  /** Re-bind the element buffer, create the vertex buffer and bind it for the attribute pointers. */
  function AttachCalls(ebo: ElementBuffers.ElementBuffer, vbo: u32, vertexBytes: nat): seq<GlCall>
  {
    [ElementBuffers.Bind(ebo)] + VertexBufferCalls(vbo, vertexBytes) + [BindBuffer(ArrayBuffer, vbo)]
  }

  /** Unbind the vertex buffer, then the vertex array. */
  const TeardownCalls: seq<GlCall> := [BindBuffer(ArrayBuffer, 0), BindVertexArray(0)]

  /**
    `VertexArray::new`, given the names the device hands out. A zero
    vertex-array name panics first; then the element buffer's own checks
    apply (empty indices, zero buffer name). The recorded index count is
    the element buffer's.
   */
  function New(indices: seq<u32>, layout: Layout, vertexBytes: nat, h: Handles): (r: Result<Built<VertexArray>>)
    ensures r.Ok? <==> h.vao != 0 && |indices| > 0 && h.ebo != 0
    ensures h.vao == 0 ==> r == Err(NullHandle(VertexArrayObject))
    ensures h.vao != 0 && |indices| == 0 ==> r == Err(EmptyIndices)
    ensures h.vao != 0 && |indices| > 0 && h.ebo == 0 ==> r == Err(NullHandle(BufferObject))
    ensures r.Ok? ==> r.value.value.id == h.vao
    ensures r.Ok? && |indices| < U32_MODULUS ==> r.value.value.numIndices == |indices|
  {
    if h.vao == 0 then Err(NullHandle(VertexArrayObject))
    else
      match ElementBuffers.New(indices, h.ebo)
      case Err(e) => Err(e)
      case Ok(built) =>
        var ebo := built.value;
        var calls := SetupCalls(h.vao, built.calls) + AttachCalls(ebo, h.vbo, vertexBytes)
                     + LayoutCalls(AttribPointers(layout)) + TeardownCalls;
        Ok(Built(VertexArray(h.vao, ebo.numIndices), calls))
  }

  /**
    The calls `new` makes as written, whether or not it panics: up to and
    including the call before the panic, and the whole trace otherwise.
   */
  function CallsMade(indices: seq<u32>, layout: Layout, vertexBytes: nat, h: Handles): (calls: seq<GlCall>)
    ensures New(indices, layout, vertexBytes, h).Ok? ==> calls == New(indices, layout, vertexBytes, h).value.calls
    ensures h.vao == 0 ==> calls == [GenVertexArrays(0)]
  {
    if h.vao == 0 then [GenVertexArrays(h.vao)]
    else if ElementBuffers.New(indices, h.ebo).Err? then
      [GenVertexArrays(h.vao), BindVertexArray(h.vao)] + ElementBuffers.CallsMade(indices, h.ebo)
    else New(indices, layout, vertexBytes, h).value.calls
  }

  /**
    The vertex array exists and is bound before the element buffer's
    checks run: when those panic, the new (empty) vertex array stays bound,
    nothing else but the generated name has changed, and no buffer is
    attached to it.
   */
  lemma {:induction false} PanicLeavesVertexArrayBound(
    indices: seq<u32>, layout: Layout, vertexBytes: nat, h: Handles, s: GlState)
    requires h.vao != 0 && (|indices| == 0 || h.ebo == 0)
    ensures New(indices, layout, vertexBytes, h).Err?
    ensures Run(s, CallsMade(indices, layout, vertexBytes, h))
      == s.(vao := h.vao, vaos := s.vaos[h.vao := EmptyVao])
  {
    var head := [GenVertexArrays(h.vao), BindVertexArray(h.vao)];
    var tail := ElementBuffers.CallsMade(indices, h.ebo);
    RunAppend(s, head, tail);
    assert head == [GenVertexArrays(h.vao)] + [BindVertexArray(h.vao)];
    RunSnoc(s, [GenVertexArrays(h.vao)], BindVertexArray(h.vao));
    RunSingle(s, GenVertexArrays(h.vao));
    var s1 := Run(s, head);
    if |tail| == 1 {
      RunSingle(s1, tail[0]);
    }
  }

  lemma RunSetup(s: GlState, indices: seq<u32>, vao: Handle, eboName: u32)
    requires ElementBuffers.New(indices, eboName).Ok?
    ensures Run(s, SetupCalls(vao, ElementBuffers.New(indices, eboName).value.calls))
      == s.(vao := vao, vaos := s.vaos[vao := EmptyVao])
  {
    var eboCalls := ElementBuffers.New(indices, eboName).value.calls;
    var head := [GenVertexArrays(vao), BindVertexArray(vao)];
    RunAppend(s, head, eboCalls);
    assert head == [GenVertexArrays(vao)] + [BindVertexArray(vao)];
    RunSnoc(s, [GenVertexArrays(vao)], BindVertexArray(vao));
    RunSingle(s, GenVertexArrays(vao));
    var s1 := s.(vao := vao, vaos := s.vaos[vao := EmptyVao]);
    assert Run(s, head) == s1;
    ElementBuffers.NewUploadsAndUnbinds(indices, eboName, s1);
  }

  lemma RunAttach(s: GlState, ebo: ElementBuffers.ElementBuffer, vbo: u32, vertexBytes: nat)
    ensures Run(s, AttachCalls(ebo, vbo, vertexBytes))
      == s.(arrayBuffer := vbo, vaos := s.vaos[s.vao := VaoOf(s, s.vao).(elementBuffer := ebo.id)])
  {
    var c0 := BindBuffer(ElementArrayBuffer, ebo.id);
    var p1 := [c0];
    var p2 := p1 + [GenBuffers(vbo)];
    var p3 := p2 + [BindBuffer(ArrayBuffer, vbo)];
    var p4 := p3 + [BufferData(ArrayBuffer, vertexBytes, GL_STATIC_DRAW)];
    var p5 := p4 + [BindBuffer(ArrayBuffer, vbo)];
    assert AttachCalls(ebo, vbo, vertexBytes) == p5;
    var s1 := s.(vaos := s.vaos[s.vao := VaoOf(s, s.vao).(elementBuffer := ebo.id)]);
    RunSingle(s, c0);
    assert Run(s, p1) == s1;
    RunSnoc(s, p1, GenBuffers(vbo));
    assert Run(s, p2) == s1;
    RunSnoc(s, p2, BindBuffer(ArrayBuffer, vbo));
    assert Run(s, p3) == s1.(arrayBuffer := vbo);
    RunSnoc(s, p3, BufferData(ArrayBuffer, vertexBytes, GL_STATIC_DRAW));
    RunSnoc(s, p4, BindBuffer(ArrayBuffer, vbo));
  }

  lemma RunTeardown(s: GlState)
    ensures Run(s, TeardownCalls) == s.(arrayBuffer := 0, vao := 0)
  {
    assert TeardownCalls == [TeardownCalls[0]] + [TeardownCalls[1]];
    RunSnoc(s, [TeardownCalls[0]], TeardownCalls[1]);
    RunSingle(s, TeardownCalls[0]);
  }

  /**
    What construction leaves behind, from any starting state: no vertex
    array and no vertex buffer bound; program and textures untouched; the
    new vertex array records the element buffer, the attribute slots the
    context accepts (each holding its pointer read from the new vertex
    buffer; `EveryElementConfigured` says when that is one per element),
    the locations below the attribute limit enabled, and nothing else;
    every other vertex array is unchanged.
   */
  lemma {:induction false} NewConfiguresVertexArray(
    indices: seq<u32>, layout: Layout, vertexBytes: nat, h: Handles, s: GlState)
    requires New(indices, layout, vertexBytes, h).Ok?
    ensures var t := Run(s, New(indices, layout, vertexBytes, h).value.calls);
      && t.vao == 0
      && t.arrayBuffer == 0
      && t.program == s.program
      && t.texturesBound == s.texturesBound
      && t.maxVertexAttribs == s.maxVertexAttribs
      && VaoOf(t, h.vao) == VaoState(h.ebo,
           Configured(AttribPointers(layout), h.vbo, s.maxVertexAttribs),
           Locations(Min(|layout.elements|, s.maxVertexAttribs)))
      && forall name :: name != h.vao ==> VaoOf(t, name) == VaoOf(s, name)
  {
    var built := ElementBuffers.New(indices, h.ebo).value;
    var ebo := built.value;
    var setup := SetupCalls(h.vao, built.calls);
    var attach := AttachCalls(ebo, h.vbo, vertexBytes);
    var ps := AttribPointers(layout);
    var calls := New(indices, layout, vertexBytes, h).value.calls;
    assert calls == setup + attach + LayoutCalls(ps) + TeardownCalls;

    RunSetup(s, indices, h.vao, h.ebo);
    var s1 := Run(s, setup);
    RunAttach(s1, ebo, h.vbo, vertexBytes);
    var s2 := Run(s1, attach);
    assert VaoOf(s2, h.vao) == VaoState(h.ebo, map[], {});
    RunLayoutCalls(s2, ps);
    var s3 := Run(s2, LayoutCalls(ps));
    assert map[] + Configured(ps, h.vbo, s.maxVertexAttribs) == Configured(ps, h.vbo, s.maxVertexAttribs);
    assert {} + Locations(Min(|ps|, s.maxVertexAttribs)) == Locations(Min(|ps|, s.maxVertexAttribs));
    RunTeardown(s3);
    forall name | name != h.vao
      ensures VaoOf(Run(s3, TeardownCalls), name) == VaoOf(s, name)
    {
      assert VaoOf(s1, name) == VaoOf(s, name);
      assert VaoOf(s2, name) == VaoOf(s1, name);
      assert VaoOf(s3, name) == VaoOf(s2, name);
    }

    RunAppend(s, setup, attach);
    RunAppend(s, setup + attach, LayoutCalls(ps));
    RunAppend(s, setup + attach + LayoutCalls(ps), TeardownCalls);
  }

  /** `get_num_indices_to_draw`: the length of the index slice the vertex array was built from. */
  lemma NumIndicesToDraw(indices: seq<u32>, layout: Layout, vertexBytes: nat, h: Handles)
    requires New(indices, layout, vertexBytes, h).Ok?
    ensures New(indices, layout, vertexBytes, h).value.value.numIndices
      == ElementBuffers.New(indices, h.ebo).value.value.numIndices
    ensures |indices| < U32_MODULUS ==> New(indices, layout, vertexBytes, h).value.value.numIndices == |indices|
  {
  }

  /** `bind`: make this vertex array current. */
  function Bind(v: VertexArray): GlCall
  {
    BindVertexArray(v.id)
  }

  /** `unbind`: make no vertex array current. */
  function Unbind(v: VertexArray): GlCall
  {
    BindVertexArray(0)
  }

  /** `bind` sets the current vertex array to this one, `unbind` resets it to 0; nothing else changes. */
  lemma BindUnbindEffect(s: GlState, v: VertexArray)
    ensures Apply(s, Bind(v)) == s.(vao := v.id)
    ensures Apply(s, Unbind(v)) == s.(vao := 0)
  {
  }
}
