/**
 * A wgpu render pass as the log of commands recorded into it, and an
 * interpreter that replays a log into the bindings it leaves behind and the
 * draws it issues, each draw with the bindings in force when it was issued.
 */
module Commands {
  import opened Wrappers
  import opened Gpu

  datatype IndexFormat = Uint16 | Uint32

  datatype Command =
    | SetPipeline(pipeline: PipelineId)
    | SetBindGroup(index: u32, group: BindGroupId)
    | SetVertexBuffer(slot: u32, buffer: BufferId)
    | SetIndexBuffer(buffer: BufferId, format: IndexFormat)
    | DrawIndexed(indices: Range, baseVertex: int, instances: Range)

  datatype IndexBinding = IndexBinding(buffer: BufferId, format: IndexFormat)

  /** What is bound in a render pass at some point of its recording. */
  datatype Bindings = Bindings(
    pipeline: Option<PipelineId>,
    bindGroups: map<u32, BindGroupId>,
    vertexBuffers: map<u32, BufferId>,
    indexBuffer: Option<IndexBinding>)

  /** One `draw_indexed`, with the bindings it was issued under. */
  datatype Draw = Draw(bindings: Bindings, indices: Range, baseVertex: int, instances: Range)

  datatype PassState = PassState(bindings: Bindings, draws: seq<Draw>)

  /** A freshly begun render pass: nothing bound, nothing drawn. */
  const Begun: PassState := PassState(Bindings(None, map[], map[], None), [])

  /** The effect of one command. */
  function Apply(s: PassState, c: Command): PassState {
    var b := s.bindings;
    match c
    case SetPipeline(p) => s.(bindings := b.(pipeline := Some(p)))
    case SetBindGroup(i, g) => s.(bindings := b.(bindGroups := b.bindGroups[i := g]))
    case SetVertexBuffer(slot, buf) => s.(bindings := b.(vertexBuffers := b.vertexBuffers[slot := buf]))
    case SetIndexBuffer(buf, f) => s.(bindings := b.(indexBuffer := Some(IndexBinding(buf, f))))
    case DrawIndexed(idx, base, inst) => s.(draws := s.draws + [Draw(b, idx, base, inst)])
  }

  /** The effect of a command log, applied in recording order. */
  function Run(s: PassState, cmds: seq<Command>): PassState
    decreases |cmds|
  {
    if cmds == [] then s else Run(Apply(s, cmds[0]), cmds[1..])
  }

  /** Replaying a log in two pieces is replaying it in one. */
  lemma {:induction false} RunConcat(s: PassState, a: seq<Command>, b: seq<Command>)
    ensures Run(s, a + b) == Run(Run(s, a), b)
    decreases |a|
  {
    if a == [] {
      assert a + b == b;
    } else {
      assert (a + b)[0] == a[0];
      assert (a + b)[1..] == a[1..] + b;
      RunConcat(Apply(s, a[0]), a[1..], b);
    }
  }

  /** The encoder side of a render pass: each `set_*`/`draw_*` call appends one command. */
  class RenderPass {
    var commands: seq<Command>

    constructor ()
      ensures commands == []
    {
      commands := [];
    }

    method SetPipeline(p: PipelineId)
      modifies this
      ensures commands == old(commands) + [Command.SetPipeline(p)]
    {
      commands := commands + [Command.SetPipeline(p)];
    }

    method SetBindGroup(index: u32, group: BindGroupId)
      modifies this
      ensures commands == old(commands) + [Command.SetBindGroup(index, group)]
    {
      commands := commands + [Command.SetBindGroup(index, group)];
    }

    method SetVertexBuffer(slot: u32, buffer: BufferId)
      modifies this
      ensures commands == old(commands) + [Command.SetVertexBuffer(slot, buffer)]
    {
      commands := commands + [Command.SetVertexBuffer(slot, buffer)];
    }

    method SetIndexBuffer(buffer: BufferId, format: IndexFormat)
      modifies this
      ensures commands == old(commands) + [Command.SetIndexBuffer(buffer, format)]
    {
      commands := commands + [Command.SetIndexBuffer(buffer, format)];
    }

    method DrawIndexed(indices: Range, baseVertex: int, instances: Range)
      modifies this
      ensures commands == old(commands) + [Command.DrawIndexed(indices, baseVertex, instances)]
    {
      commands := commands + [Command.DrawIndexed(indices, baseVertex, instances)];
    }
  }
}
