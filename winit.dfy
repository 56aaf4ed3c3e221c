/**
 * The winit events, keys and window state the application reacts to. The
 * window and the event loop belong to winit; the model keeps only the state
 * the application reads or changes through them.
 */
module Winit {
  import opened Wrappers
  import opened Gpu

  /** The key codes this application binds; every other key is `OtherKey`. */
  datatype KeyCode =
    | KeyA | KeyD | KeyE | KeyF | KeyQ | KeyS | KeyW
    | ShiftLeft | Space | ArrowDown | ArrowUp | Escape
    | OtherKey(code: nat)

  datatype PhysicalKey = Code(code: KeyCode) | Unidentified(native: nat)

  datatype ElementState = Pressed | Released

  datatype KeyEvent = KeyEvent(physicalKey: PhysicalKey, state: ElementState)
  {
    /** `ElementState::is_pressed`. */
    predicate IsPressed() {
      state == Pressed
    }

    /** `physical_key == code`, winit's comparison of a physical key with a key code. */
    predicate IsKey(code: KeyCode) {
      physicalKey == Code(code)
    }
  }

  datatype PhysicalSize = PhysicalSize(width: u32, height: u32)

  datatype MouseScrollDelta = LineDelta(columns: real, lines: real) | PixelDelta(dx: real, dy: real)

  datatype WindowEvent =
    | CloseRequested
    | KeyboardInput(event: KeyEvent)
    | RedrawRequested
    | Resized(size: PhysicalSize)
    | MouseWheel(delta: MouseScrollDelta)
    | OtherWindowEvent

  datatype MonitorHandle = MonitorHandle(id: nat)

  datatype Fullscreen = Borderless(monitor: Option<MonitorHandle>) | Exclusive(videoMode: nat)

  /** The part of a winit window that the application reads or changes. */
  class Window {
    var fullscreen: Option<Fullscreen>
    var innerSize: PhysicalSize
    var redrawRequests: nat

    constructor (size: PhysicalSize)
      ensures fullscreen == None && innerSize == size && redrawRequests == 0
    {
      fullscreen := None;
      innerSize := size;
      redrawRequests := 0;
    }

    method SetFullscreen(f: Option<Fullscreen>)
      modifies this
      ensures fullscreen == f
      ensures innerSize == old(innerSize) && redrawRequests == old(redrawRequests)
    {
      fullscreen := f;
    }

    method RequestRedraw()
      modifies this
      ensures redrawRequests == old(redrawRequests) + 1
      ensures fullscreen == old(fullscreen) && innerSize == old(innerSize)
    {
      redrawRequests := redrawRequests + 1;
    }
  }

  /** winit's `ActiveEventLoop`; `exit` asks the loop to stop after this event. */
  class EventLoop {
    var exiting: bool

    constructor ()
      ensures !exiting
    {
      exiting := false;
    }

    method Exit()
      modifies this
      ensures exiting
    {
      exiting := true;
    }
  }
}
