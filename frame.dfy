/**
 * One frame of `State::render`, as the trace of calls it makes on the
 * surface, device, encoder, render pass and queue.
 */
module Frame {
  import opened Ints
  import opened Surface

  /** `wgpu::SurfaceError`. */
  datatype SurfaceError = Timeout | Outdated | Lost | OutOfMemory | Other

  /** The result of `surface.get_current_texture()`. */
  datatype Acquire = Acquired | Failed(error: SurfaceError)

  /** The calls the program makes into the graphics library. */
  datatype GpuCall =
    | Configure(config: SurfaceConfiguration)   // surface.configure(&device, &config)
    | LogAcquireError(error: SurfaceError)      // eprintln! of the acquisition error
    | CreateView                                // frame.texture.create_view(..)
    | CreateEncoder                             // device.create_command_encoder(..)
    | BeginRenderPass                           // clear to the background colour, store
    | SetPipeline
    | SetVertexBuffer(slot: nat)
    | SetIndexBuffer                            // whole index buffer, Uint16
    | DrawIndexed(first: nat, end: nat, baseVertex: int, firstInstance: nat, endInstance: nat)
    | EndRenderPass                             // the render pass goes out of scope
    | Submit                                    // queue.submit(Some(encoder.finish()))
    | Present                                   // frame.present()

  /** The calls for a successfully acquired frame: one render pass with one draw over `0..indexCount`, submit, present. */
  function DrawCommands(indexCount: u32): seq<GpuCall>
  {
    [CreateView, CreateEncoder, BeginRenderPass, SetPipeline, SetVertexBuffer(0), SetIndexBuffer,
     DrawIndexed(0, indexCount as nat, 0, 0, 1), EndRenderPass, Submit, Present]
  }

  /** What one call of `render` issues, given the acquisition result. */
  function RenderTrace(acquire: Acquire, config: SurfaceConfiguration, indexCount: u32): (t: seq<GpuCall>)
    ensures acquire.Failed? ==> |t| <= 1 && Submit !in t && Present !in t && NoDraw(t)
    ensures acquire.Acquired? ==> NoConfigure(t) && Present in t && Submit in t
  {
    match acquire
    case Acquired => DrawCommands(indexCount)
    case Failed(Lost) => [Configure(config)]
    case Failed(Outdated) => []
    case Failed(e) => [LogAcquireError(e)]
  }

  /** `c` occurs in the trace at position `j` and nowhere else. */
  predicate OnlyAt(t: seq<GpuCall>, c: GpuCall, j: nat)
  {
    j < |t| && t[j] == c && forall k :: 0 <= k < |t| && t[k] == c ==> k == j
  }

  /** The trace's only draw call is at position `j`. */
  predicate OnlyDrawAt(t: seq<GpuCall>, j: nat)
  {
    j < |t| && t[j].DrawIndexed? && forall k :: 0 <= k < |t| && t[k].DrawIndexed? ==> k == j
  }

  /** The trace has no draw call. */
  predicate NoDraw(t: seq<GpuCall>)
  {
    forall k :: 0 <= k < |t| ==> !t[k].DrawIndexed?
  }

  /** True when no call in the trace configures the surface. */
  predicate NoConfigure(t: seq<GpuCall>)
  {
    forall k :: 0 <= k < |t| ==> !t[k].Configure?
  }

  /** Every `Present` in the trace comes after some `Submit`. */
  predicate PresentFollowsSubmit(t: seq<GpuCall>)
  {
    forall j :: 0 <= j < |t| && t[j] == Present ==> exists i :: 0 <= i < j && t[i] == Submit
  }

  /** On `Lost` the surface is configured once with the current configuration; nothing is drawn, submitted or presented. */
  lemma RenderLost(config: SurfaceConfiguration, n: u32)
    ensures var t := RenderTrace(Failed(Lost), config, n);
      && |t| == 1 && OnlyAt(t, Configure(config), 0)
      && Submit !in t && Present !in t && NoDraw(t)
  {
  }

  /** On `Outdated` nothing at all happens. */
  lemma RenderOutdated(config: SurfaceConfiguration, n: u32)
    ensures RenderTrace(Failed(Outdated), config, n) == []
  {
  }

  /** On any other acquisition error the error is logged and nothing else happens. */
  lemma RenderOtherError(e: SurfaceError, config: SurfaceConfiguration, n: u32)
    requires e != Lost && e != Outdated
    ensures RenderTrace(Failed(e), config, n) == [LogAcquireError(e)]
  {
  }

  /**
   * On success: exactly one draw, over indices `0..indexCount` and one
   * instance; after it exactly one submit; after that exactly one present,
   * the last call. The surface is not reconfigured.
   */
  lemma RenderAcquired(config: SurfaceConfiguration, n: u32)
    ensures var t := RenderTrace(Acquired, config, n);
      exists d: nat, s: nat ::
        && d < s < |t| - 1
        && OnlyDrawAt(t, d) && t[d] == DrawIndexed(0, n as nat, 0, 0, 1)
        && OnlyAt(t, Submit, s) && OnlyAt(t, Present, |t| - 1)
    ensures NoConfigure(RenderTrace(Acquired, config, n))
  {
    var t := RenderTrace(Acquired, config, n);
    assert OnlyDrawAt(t, 6) && OnlyAt(t, Submit, 8) && OnlyAt(t, Present, 9);
  }

  /** A frame is submitted and presented exactly when a texture was acquired, and presentation follows submission. */
  lemma PresentIffAcquired(acquire: Acquire, config: SurfaceConfiguration, n: u32)
    ensures var t := RenderTrace(acquire, config, n);
      && (Present in t <==> acquire.Acquired?)
      && (Submit in t <==> acquire.Acquired?)
      && PresentFollowsSubmit(t)
  {
    var t := RenderTrace(acquire, config, n);
    if acquire.Acquired? {
      forall j | 0 <= j < |t| && t[j] == Present
        ensures exists i :: 0 <= i < j && t[i] == Submit
      {
        assert j == 9 && t[8] == Submit;
      }
    }
  }
}
