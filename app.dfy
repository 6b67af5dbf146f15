/**
 * The application handler: which window events reach the state, and what
 * each one does to it.
 */
module Events {
  import opened Ints
  import opened Options
  import opened Surface
  import opened Frame
  import opened MeshBuilder
  import opened Renderer

  /** `winit::event::ElementState`. */
  datatype ElementState = Pressed | Released

  /** `winit::keyboard::KeyCode`, with every key other than Escape folded into one case. */
  datatype KeyCode = Escape | OtherKey(code: nat)

  /** `winit::keyboard::PhysicalKey`. */
  datatype PhysicalKey = Code(code: KeyCode) | Unidentified

  /** The fields of `winit::event::KeyEvent` the program matches on. */
  datatype KeyEvent = KeyEvent(physicalKey: PhysicalKey, state: ElementState, repeat: bool)

  /** `winit::event::WindowEvent`, with the variants the program ignores folded into one case. */
  datatype WindowEvent =
    | Resized(size: PhysicalSize)
    | RedrawRequested
    | CloseRequested
    | KeyboardInput(event: KeyEvent)
    | OtherEvent

  /** What the handler does with one event; `Exit` stands for `std::process::exit(0)`. */
  datatype Action = Ignore | Resize(width: u32, height: u32) | Render | Exit

  /** True for a press of the physical Escape key. */
  predicate IsEscapePress(k: KeyEvent)
  {
    k.physicalKey == Code(Escape) && k.state == Pressed
  }

  /**
   * `App::window_event` as a function of the stored window id, whether the
   * state exists, the event's window id and the event.
   */
  function Dispatch(windowId: Option<WindowId>, hasState: bool, id: WindowId, event: WindowEvent): (r: Action)
    ensures windowId != Some(id) || !hasState ==> r == Ignore
    ensures r.Resize? ==> event.Resized? && r == Resize(event.size.width, event.size.height)
  {
    if windowId != Some(id) then Ignore
    else if !hasState then Ignore
    else match event
      case Resized(sz) => Resize(sz.width, sz.height)
      case RedrawRequested => Render
      case CloseRequested => Exit
      case KeyboardInput(k) => if IsEscapePress(k) then Exit else Ignore
      case OtherEvent => Ignore
  }

  /**
   * Once the state exists, for its own window: `Resized` resizes to the new
   * size, `RedrawRequested` renders, and nothing else does either.
   */
  lemma DispatchRoutes(id: WindowId, event: WindowEvent)
    ensures Dispatch(Some(id), true, id, event).Resize? <==> event.Resized?
    ensures event.Resized? ==> Dispatch(Some(id), true, id, event) == Resize(event.size.width, event.size.height)
    ensures Dispatch(Some(id), true, id, event) == Render <==> event == RedrawRequested
  {
  }

  /**
   * The handler exits exactly on a close request or an Escape press for its
   * own window once the state exists; a released Escape is ignored.
   */
  lemma DispatchExit(windowId: Option<WindowId>, hasState: bool, id: WindowId, event: WindowEvent)
    ensures Dispatch(windowId, hasState, id, event) == Exit <==>
      && windowId == Some(id) && hasState
      && (event == CloseRequested || (event.KeyboardInput? && IsEscapePress(event.event)))
    ensures event.KeyboardInput? && event.event.state == Released ==> Dispatch(windowId, hasState, id, event) == Ignore
  {
  }

  /** `App`: the optional state and window id, and whether the process has exited. */
  class App {
    var state: State?
    var windowId: Option<WindowId>
    /** Set where the program calls `std::process::exit(0)`; nothing runs afterwards. */
    var exited: bool

    /** A present state is valid and belongs to the stored window. */
    ghost predicate Valid()
      reads this, state
    {
      state != null ==> state.Valid() && windowId == Some(state.windowId)
    }

    /** `App::default`. */
    constructor ()
      ensures Valid() && state == null && windowId == None && !exited
    {
      state := null;
      windowId := None;
      exited := false;
    }

    /**
     * `App::resumed`, given the id of the window it creates, the surface
     * capabilities and the window's inner size.
     */
    method Resumed(id: WindowId, caps: SurfaceCapabilities, size: PhysicalSize)
      requires !exited
      requires |caps.formats| > 0 && |caps.alphaModes| > 0
      modifies this
      ensures Valid() && !exited
      ensures windowId == Some(id) && state != null && fresh(state)
      ensures state.config == InitialConfig(caps, size) && state.calls == [Configure(state.config)]
      ensures state.caps == caps
      ensures state.mesh.vertices == BatchVertices(|DEMO_RECTS|) && state.mesh.indices == BatchIndices(|DEMO_RECTS|)
      ensures state.mesh.indexCount == 30
    {
      windowId := Some(id);
      state := new State(id, caps, size);
    }

    /**
     * `App::window_event`: dispatch, then resize, render or exit; `acquire` is
     * what the surface hands out if a frame is rendered.
     */
    method HandleWindowEvent(id: WindowId, event: WindowEvent, acquire: Acquire) returns (action: Action)
      requires Valid() && !exited
      modifies this, state
      ensures Valid()
      ensures action == Dispatch(old(windowId), old(state) != null, id, event)
      ensures state == old(state) && windowId == old(windowId)
      ensures exited <==> action == Exit
      ensures action.Resize? ==>
        && state != null
        && state.config == ResizedConfig(old(state.config), action.width, action.height)
        && state.calls == old(state.calls) + [Configure(state.config)]
      ensures action == Render ==>
        && state != null && state.config == old(state.config)
        && state.calls == old(state.calls) + RenderTrace(acquire, state.config, state.mesh.indexCount)
      ensures (action == Ignore || action == Exit) && state != null ==>
        state.config == old(state.config) && state.calls == old(state.calls)
    {
      action := Dispatch(windowId, state != null, id, event);
      match action {
        case Resize(w, h) => state.Resize(w, h);
        case Render => state.Render(acquire);
        case Exit => exited := true;
        case Ignore =>
      }
    }

    /** `App::about_to_wait`: a redraw is requested exactly when the state exists. */
    method AboutToWait() returns (redraw: bool)
      requires !exited
      ensures redraw <==> state != null
    {
      redraw := state != null;
    }
  }
}
