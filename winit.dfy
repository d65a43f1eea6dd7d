/**
 * The few windowing-library types the application reacts to: input events
 * (only the kinds that the application distinguishes), the window's physical
 * size and the event loop's control flow.
 */
module Winit {
  import opened Wrappers

  /** Unsigned 32-bit integers, as in the window's physical size. */
  newtype u32 = x: int | 0 <= x < 0x1_0000_0000

  /** The window's inner size in physical pixels. */
  datatype PhysicalSize = PhysicalSize(width: u32, height: u32)

  datatype ElementState = Pressed | Released

  /** Virtual key codes: the two the application names, and every other key. */
  datatype VirtualKeyCode = Escape | M | OtherKey(code: nat)

  /**
   * A window-system event. `CloseRequested` and `KeyboardInput` stand for the
   * window events of those names; every other event (other window events,
   * device events, redraw and loop events) is an `OtherEvent`, told apart by
   * an opaque identity.
   */
  datatype Event =
    | CloseRequested
    | KeyboardInput(state: ElementState, virtualKeycode: Option<VirtualKeyCode>)
    | OtherEvent(id: nat)

  datatype ControlFlow = Poll | Exit

  /** True of a keyboard event that presses the given key. */
  predicate KeyPressed(e: Event, key: VirtualKeyCode) {
    e.KeyboardInput? && e.state == Pressed && e.virtualKeycode == Some(key)
  }
}
