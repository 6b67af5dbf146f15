/**
 * `State`: the surface configuration the program keeps and updates, the mesh
 * it draws, and the calls it makes into the graphics library.
 */
module Renderer {
  import opened Ints
  import opened Surface
  import opened MeshBuilder
  import opened Frame

  /** `winit::window::WindowId`. */
  type WindowId = nat

  class State {
    /** The id of the window this state renders into. */
    const windowId: WindowId
    /** The capabilities the adapter advertised for the surface at start-up. */
    ghost const caps: SurfaceCapabilities
    /** The vertex and index buffers and `index_count`. */
    const mesh: Mesh
    /** `self.config`, the only field the program changes after start-up. */
    var config: SurfaceConfiguration
    /** Every call made into the graphics library, in order. */
    ghost var calls: seq<GpuCall>

    /** The surface is never configured at size zero, draws stay within the mesh, and the config stays advertised. */
    ghost predicate Valid()
      reads this`config
    {
      && config.width >= 1 && config.height >= 1
      && config.format in caps.formats && config.alphaMode in caps.alphaModes
      && (config.presentMode in caps.presentModes || config.presentMode == Fifo)
      && WellFormed(mesh)
    }

    /**
     * `State::new` after the device is obtained: choose and apply the
     * configuration, then build the mesh of the compiled-in rectangles.
     */
    constructor (windowId: WindowId, caps: SurfaceCapabilities, size: PhysicalSize)
      requires |caps.formats| > 0 && |caps.alphaModes| > 0
      ensures Valid()
      ensures this.windowId == windowId && this.caps == caps
      ensures config == InitialConfig(caps, size)
      ensures calls == [Configure(config)]
      ensures mesh.vertices == BatchVertices(|DEMO_RECTS|) && mesh.indices == BatchIndices(|DEMO_RECTS|)
      ensures mesh.indexCount == 30
    {
      var c := InitialConfig(caps, size);
      var m := BuildMesh(DEMO_RECTS);
      DemoMesh();
      this.windowId := windowId;
      this.caps := caps;
      this.mesh := m;
      this.config := c;
      this.calls := [Configure(c)];
    }

    /** `State::resize`: overwrite the two dimensions, clamped to 1, and configure once. */
    method Resize(w: u32, h: u32)
      requires Valid()
      modifies this
      ensures Valid()
      ensures config == ResizedConfig(old(config), w, h)
      ensures config.width == Max1(w) && config.height == Max1(h)
      ensures calls == old(calls) + [Configure(config)]
    {
      config := config.(width := Max1(w));
      config := config.(height := Max1(h));
      calls := calls + [Configure(config)];
    }

    /**
     * `State::render`, given what `get_current_texture` returns: reconfigure on
     * `Lost`, skip on `Outdated`, log any other error, otherwise record one
     * draw over the whole index range, submit and present.
     */
    method Render(acquire: Acquire)
      requires Valid()
      modifies this
      ensures Valid() && config == old(config)
      ensures calls == old(calls) + RenderTrace(acquire, config, mesh.indexCount)
    {
      match acquire {
        case Failed(Lost) =>
          calls := calls + [Configure(config)];
          return;
        case Failed(Outdated) =>
          return;
        case Failed(e) =>
          calls := calls + [LogAcquireError(e)];
          return;
        case Acquired =>
      }

      calls := calls + [CreateView];
      calls := calls + [CreateEncoder];
      calls := calls + [BeginRenderPass];
      calls := calls + [SetPipeline];
      calls := calls + [SetVertexBuffer(0)];
      calls := calls + [SetIndexBuffer];
      calls := calls + [DrawIndexed(0, mesh.indexCount as nat, 0, 0, 1)];
      calls := calls + [EndRenderPass];
      calls := calls + [Submit];
      calls := calls + [Present];
    }
  }

  /** The single draw a frame issues covers every index of the mesh and only those. */
  lemma DrawCoversMesh(m: Mesh, config: SurfaceConfiguration)
    requires WellFormed(m)
    ensures DrawIndexed(0, |m.indices|, 0, 0, 1) in RenderTrace(Acquired, config, m.indexCount)
  {
    assert RenderTrace(Acquired, config, m.indexCount)[6] == DrawIndexed(0, |m.indices|, 0, 0, 1);
  }
}
