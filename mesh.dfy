/**
 * Meshes: a vertex buffer and an index buffer uploaded once, and the two ways
 * of drawing them into a render pass (with an instance buffer, or as a single
 * instance). Also the vertex-buffer layouts that `Vertex::desc` and
 * `Instance::desc` derive from a vertex type.
 */
module Mesh {
  import opened Wrappers
  import opened Gpu
  import opened Commands

  datatype VertexFormat = Float32x2 | Float32x3 | Float32x4

  function FormatSize(f: VertexFormat): nat {
    match f
    case Float32x2 => 8
    case Float32x3 => 12
    case Float32x4 => 16
  }

  datatype VertexAttribute = VertexAttribute(format: VertexFormat, offset: nat, shaderLocation: u32)

  datatype VertexStepMode = VertexStep | InstanceStep

  /** `wgpu::VertexBufferLayout`. */
  datatype VertexBufferLayout = VertexBufferLayout(
    arrayStride: nat,
    stepMode: VertexStepMode,
    attributes: seq<VertexAttribute>)

  /** A `Pod` vertex or instance type as the layout code sees it: `size_of::<Self>()` and `Self::attribs()`. */
  datatype PodLayout = PodLayout(size: nat, attribs: seq<VertexAttribute>)

  /** Every attribute lies inside one element of the type. */
  predicate AttributesFit(t: PodLayout) {
    forall i :: 0 <= i < |t.attribs| ==> t.attribs[i].offset + FormatSize(t.attribs[i].format) <= t.size
  }

  /** `Vertex::desc`: one element per vertex. */
  function VertexDesc(t: PodLayout): (l: VertexBufferLayout)
    ensures l.arrayStride == t.size && l.stepMode == VertexStep && l.attributes == t.attribs
  {
    VertexBufferLayout(t.size, VertexStep, t.attribs)
  }

  /** `Instance::desc`: one element per instance. */
  function InstanceDesc(t: PodLayout): (l: VertexBufferLayout)
    ensures l.arrayStride == t.size && l.stepMode == InstanceStep && l.attributes == t.attribs
  {
    VertexBufferLayout(t.size, InstanceStep, t.attribs)
  }

  /** The two descriptions of a type agree on everything but the step mode. */
  lemma DescsDifferOnlyInStepMode(t: PodLayout)
    ensures VertexDesc(t).(stepMode := InstanceStep) == InstanceDesc(t)
    ensures VertexDesc(t) != InstanceDesc(t)
  {
  }

  /** `DefaultVertex3d`: a position of three f32, read at shader location 0. */
  datatype DefaultVertex3d = DefaultVertex3d(position: Vec3)

  const DefaultVertex3dLayout: PodLayout := PodLayout(12, [VertexAttribute(Float32x3, 0, 0)])

  datatype Mesh<V> = Mesh(vertexBuffer: Buffer<V>, indexBuffer: Buffer<u32>, elementCount: nat)

  /**
   * `Mesh::create`. The two handles are those `create_buffer_init` returns
   * for the vertex and the index upload.
   */
  function Create<V>(vertexHandle: BufferId, indexHandle: BufferId, vertices: seq<V>, indices: seq<u32>): (m: Mesh<V>)
    ensures m.elementCount == |indices|
    ensures m.vertexBuffer == Buffer(vertexHandle, {VertexUsage}, vertices)
    ensures m.indexBuffer == Buffer(indexHandle, {IndexUsage}, indices)
  {
    Mesh(Buffer(vertexHandle, {VertexUsage}, vertices), Buffer(indexHandle, {IndexUsage}, indices), |indices|)
  }

  /** Every index names a vertex of the mesh. */
  predicate IndicesInBounds<V>(m: Mesh<V>) {
    forall i :: 0 <= i < |m.indexBuffer.contents| ==> m.indexBuffer.contents[i] < |m.vertexBuffer.contents|
  }

  /** The index range both draw methods pass: `0..element_count as u32`. */
  function ElementRange<V>(m: Mesh<V>): Range {
    Range(0, AsU32(m.elementCount))
  }

  /** The commands `draw_instanced` records. */
  function DrawInstancedCommands<V>(m: Mesh<V>, instanceBuffer: BufferId, instances: Range): (cmds: seq<Command>)
    ensures |cmds| == 4
    ensures cmds[3] == Command.DrawIndexed(ElementRange(m), 0, instances)
    ensures forall i :: 0 <= i < 3 ==> !cmds[i].DrawIndexed?
  {
    [ Command.SetVertexBuffer(0, m.vertexBuffer.id),
      Command.SetVertexBuffer(1, instanceBuffer),
      Command.SetIndexBuffer(m.indexBuffer.id, Uint32),
      Command.DrawIndexed(ElementRange(m), 0, instances) ]
  }

  /** The commands `draw` records. */
  function DrawCommands<V>(m: Mesh<V>): (cmds: seq<Command>)
    ensures |cmds| == 3
    ensures cmds[2] == Command.DrawIndexed(ElementRange(m), 0, Range(0, 1))
    ensures forall i :: 0 <= i < |cmds| && cmds[i].SetVertexBuffer? ==> cmds[i].slot == 0
  {
    [ Command.SetVertexBuffer(0, m.vertexBuffer.id),
      Command.SetIndexBuffer(m.indexBuffer.id, Uint32),
      Command.DrawIndexed(ElementRange(m), 0, Range(0, 1)) ]
  }

  /**
   * Whatever was recorded before, `draw_instanced` leaves the mesh's vertex
   * buffer in slot 0, the instance buffer in slot 1 and the mesh's index
   * buffer (as u32) bound, keeps the pipeline, the bind groups and the other
   * slots, and adds exactly one draw, issued under those bindings, of the
   * whole index range with the caller's instance range.
   */
  lemma DrawInstancedEffect<V>(m: Mesh<V>, s: PassState, instanceBuffer: BufferId, instances: Range)
    ensures var t := Run(s, DrawInstancedCommands(m, instanceBuffer, instances));
      && t.bindings == s.bindings.(
           vertexBuffers := s.bindings.vertexBuffers[0 := m.vertexBuffer.id][1 := instanceBuffer],
           indexBuffer := Some(IndexBinding(m.indexBuffer.id, Uint32)))
      && t.draws == s.draws + [Commands.Draw(t.bindings, ElementRange(m), 0, instances)]
  {
    var cmds := DrawInstancedCommands(m, instanceBuffer, instances);
    var s1 := Apply(s, cmds[0]);
    var s2 := Apply(s1, cmds[1]);
    var s3 := Apply(s2, cmds[2]);
    assert cmds[1..][1..][1..][1..] == [];
    calc {
      Run(s, cmds);
      Run(s1, cmds[1..]);
      Run(s2, cmds[1..][1..]);
      Run(s3, cmds[1..][1..][1..]);
      Run(Apply(s3, cmds[3]), []);
    }
  }

  /**
   * `draw` binds slot 0 and the index buffer but never slot 1 (whatever was
   * there stays), and adds one draw of the whole index range as one instance.
   */
  lemma DrawEffect<V>(m: Mesh<V>, s: PassState)
    ensures var t := Run(s, DrawCommands(m));
      && t.bindings == s.bindings.(
           vertexBuffers := s.bindings.vertexBuffers[0 := m.vertexBuffer.id],
           indexBuffer := Some(IndexBinding(m.indexBuffer.id, Uint32)))
      && t.draws == s.draws + [Commands.Draw(t.bindings, ElementRange(m), 0, Range(0, 1))]
      && t.draws[|s.draws|].instances.Len() == 1
  {
    var cmds := DrawCommands(m);
    var s1 := Apply(s, cmds[0]);
    var s2 := Apply(s1, cmds[1]);
    assert cmds[1..][1..][1..] == [];
    calc {
      Run(s, cmds);
      Run(s1, cmds[1..]);
      Run(s2, cmds[1..][1..]);
      Run(Apply(s2, cmds[2]), []);
    }
  }

  /**
   * When the mesh's indices name its vertices and there are fewer than 2^32
   * of them, the index range drawn covers exactly the index buffer, so no
   * draw reads past it or references a vertex that is not there.
   */
  lemma DrawnIndicesInBounds<V>(m: Mesh<V>)
    requires IndicesInBounds(m)
    requires m.elementCount == |m.indexBuffer.contents| < U32_LIMIT
    ensures ElementRange(m).Len() == |m.indexBuffer.contents|
    ensures forall k :: ElementRange(m).Contains(k) ==>
              k < |m.indexBuffer.contents| && m.indexBuffer.contents[k] < |m.vertexBuffer.contents|
  {
  }

  /** `Mesh::draw_instanced`. */
  method DrawInstanced<V>(m: Mesh<V>, pass: RenderPass, instanceBuffer: BufferId, instances: Range)
    modifies pass
    ensures pass.commands == old(pass.commands) + DrawInstancedCommands(m, instanceBuffer, instances)
  {
    pass.SetVertexBuffer(0, m.vertexBuffer.id);
    pass.SetVertexBuffer(1, instanceBuffer);
    pass.SetIndexBuffer(m.indexBuffer.id, Uint32);
    pass.DrawIndexed(Range(0, AsU32(m.elementCount)), 0, instances);
  }

  /** `Mesh::draw`. */
  method Draw<V>(m: Mesh<V>, pass: RenderPass)
    modifies pass
    ensures pass.commands == old(pass.commands) + DrawCommands(m)
  {
    pass.SetVertexBuffer(0, m.vertexBuffer.id);
    pass.SetIndexBuffer(m.indexBuffer.id, Uint32);
    pass.DrawIndexed(Range(0, AsU32(m.elementCount)), 0, Range(0, 1));
  }
}
