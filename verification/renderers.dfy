/**
  `Renderer`: clears the colour buffer and draws one vertex array with one
  program, as a bind, draw, unbind protocol over the binding state.

  `Program` here is only the part the renderer uses: a linked program's
  non-zero name and its bind/unbind calls. Binding and unbinding the
  program's textures are opaque steps; all the model knows of them is the
  textures-bound flag they set and clear. Which texture units stay bound
  after the unbind step is not part of this model.
 */
module Renderers {
  import opened Gl
  import Layouts
  import VertexArrays

  /** A linked program: construction panics on a zero name, so the name is non-zero. */
  datatype Program = Program(id: Handle)

  /** `Program::bind`. */
  function BindProgram(p: Program): GlCall
  {
    UseProgram(p.id)
  }

  /** `Program::unbind`. */
  function UnbindProgram(p: Program): GlCall
  {
    UseProgram(0)
  }

  /** Binding a program makes it current; unbinding makes no program current. */
  lemma ProgramBindUnbindEffect(s: GlState, p: Program)
    ensures Apply(s, BindProgram(p)) == s.(program := p.id)
    ensures Apply(s, UnbindProgram(p)) == s.(program := 0)
  {
  }

  /** `Renderer::clear`. */
  function ClearCall(): GlCall
  {
    Clear(GL_COLOR_BUFFER_BIT)
  }

  /** Clearing touches only the colour buffer: no binding changes. */
  lemma ClearKeepsBindings(s: GlState)
    ensures ClearCall().mask == GL_COLOR_BUFFER_BIT
    ensures Apply(s, ClearCall()) == s
  {
  }

  /** `Renderer::draw`: the calls it makes, in order. */
  function Draw(vao: VertexArrays.VertexArray, program: Program): seq<GlCall>
  {
    var numIndices := vao.numIndices;
    [ BindProgram(program),
      BindTextures(program.id),
      VertexArrays.Bind(vao),
      DrawElements(GL_TRIANGLES, AsI32(numIndices), GL_UNSIGNED_INT),
      VertexArrays.Unbind(vao),
      UnbindTextures(program.id),
      UnbindProgram(program) ]
  }

  /** The three binding points a draw sets up. */
  datatype BindingPoint = CurrentProgram | ProgramTextures | CurrentVertexArray

  /** The binding point a call binds something to, if it is a bind. */
  function BindsTo(c: GlCall): Option<BindingPoint>
  {
    match c
    case UseProgram(p) => if p != 0 then Some(CurrentProgram) else None
    case BindTextures(_) => Some(ProgramTextures)
    case BindVertexArray(v) => if v != 0 then Some(CurrentVertexArray) else None
    case _ => None
  }

  /** The binding point a call clears, if it is an unbind. */
  function Clears(c: GlCall): Option<BindingPoint>
  {
    match c
    case UseProgram(p) => if p == 0 then Some(CurrentProgram) else None
    case UnbindTextures(_) => Some(ProgramTextures)
    case BindVertexArray(v) => if v == 0 then Some(CurrentVertexArray) else None
    case _ => None
  }

  /**
    The draw protocol: exactly one draw call, in the middle; before it, the
    binds program, textures, vertex array in that order; after it, the
    unbinds, the i-th from the end undoing the i-th bind, so they run in
    exactly the reverse order.
   */
  lemma DrawIsBracketed(vao: VertexArrays.VertexArray, program: Program)
    ensures var calls := Draw(vao, program);
      && |calls| == 7
      && (forall i :: 0 <= i < |calls| ==> (calls[i].DrawElements? <==> i == 3))
      && BindsTo(calls[0]) == Some(CurrentProgram)
      && BindsTo(calls[1]) == Some(ProgramTextures)
      && BindsTo(calls[2]) == Some(CurrentVertexArray)
      && (forall i :: 0 <= i < 3 ==> Clears(calls[i]).None?)
      && (forall i :: 4 <= i < 7 ==> BindsTo(calls[i]).None?)
      && (forall i :: 0 <= i < 3 ==> Clears(calls[6 - i]) == BindsTo(calls[i]))
  {
  }

  /**
    The draw requests exactly the vertex array's recorded index count, as a
    triangle list of `u32` indices. The count goes through `as i32`, so it
    is the recorded count itself whenever that is below 2^31, and negative,
    which the GL refuses with `GL_INVALID_VALUE`, from 2^31 on.
   */
  lemma DrawRequestsRecordedCount(vao: VertexArrays.VertexArray, program: Program)
    ensures var d := Draw(vao, program)[3];
      && d.DrawElements?
      && d.mode == GL_TRIANGLES
      && d.indexType == GL_UNSIGNED_INT
      && AsU32(d.count) == vao.numIndices
      && (vao.numIndices < 0x8000_0000 ==> d.count == vao.numIndices)
      && (d.count >= 0 <==> vao.numIndices < 0x8000_0000)
  {
    AsI32RoundTrip(vao.numIndices);
  }

  /**
    The binding state the draw call sees, and the state after `draw`
    returns, from any starting state: at the draw the program and the
    vertex array are bound and the textures-bound flag is set; afterwards
    no program and no vertex array are bound, the flag the opaque texture
    unbind step clears is false, and nothing else has changed.
   */
  lemma {:induction false} DrawLeavesNoBinding(vao: VertexArrays.VertexArray, program: Program, s: GlState)
    ensures var calls := Draw(vao, program);
      var atDraw := Run(s, calls[..3]);
      && atDraw.program == program.id
      && atDraw.vao == vao.id
      && atDraw.texturesBound
    ensures Run(s, Draw(vao, program)) == s.(program := 0, vao := 0, texturesBound := false)
  {
    var calls := Draw(vao, program);
    var s1 := s.(program := program.id);
    var s2 := s1.(texturesBound := true);
    var s3 := s2.(vao := vao.id);
    var s5 := s3.(vao := 0);
    var s6 := s5.(texturesBound := false);
    RunSingle(s, calls[0]);
    assert calls[..2] == [calls[0]] + [calls[1]];
    RunSnoc(s, [calls[0]], calls[1]);
    assert calls[..3] == calls[..2] + [calls[2]];
    RunSnoc(s, calls[..2], calls[2]);
    assert Run(s, calls[..3]) == s3;
    assert calls[..4] == calls[..3] + [calls[3]];
    RunSnoc(s, calls[..3], calls[3]);
    assert calls[..5] == calls[..4] + [calls[4]];
    RunSnoc(s, calls[..4], calls[4]);
    assert Run(s, calls[..5]) == s5;
    assert calls[..6] == calls[..5] + [calls[5]];
    RunSnoc(s, calls[..5], calls[5]);
    assert calls == calls[..6] + [calls[6]];
    RunSnoc(s, calls[..6], calls[6]);
  }

  /**
    End to end: drawing a vertex array built from an index slice asks for
    exactly as many indices as the slice holds (for fewer than 2^31 of
    them), whatever the layout and vertex data.
   */
  lemma DrawCountIsIndexCount(
    indices: seq<u32>, layout: Layouts.Layout, vertexBytes: nat,
    h: VertexArrays.Handles, program: Program)
    requires VertexArrays.New(indices, layout, vertexBytes, h).Ok?
    requires |indices| < 0x8000_0000
    ensures var vao := VertexArrays.New(indices, layout, vertexBytes, h).value.value;
      Draw(vao, program)[3] == DrawElements(GL_TRIANGLES, |indices|, GL_UNSIGNED_INT)
  {
  }
}
