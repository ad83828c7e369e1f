/**
 * `InputsManager` (inputs_manager.hpp and inputs_manager.cpp): samples the
 * window once per frame, drives the five repeat controls, keeps the cursor
 * delta, holds the two values written by window callbacks with their one-shot
 * "changed" flags, and assembles the per-frame `InputsSnapshot`.
 *
 * Device queries (`glfwGetKey`, `glfwGetMouseButton`, `glfwGetCursorPos`) and
 * the clock become parameters; `glfwSetInputMode` calls are recorded in
 * `cursorModeRequests`.
 */
module Inputs {
  import opened KeyRepeat

  /** The flags handed to the camera/UI stage each frame. */
  datatype InputsSnapshot = InputsSnapshot(
    framebufferResized: bool,
    mouseCaptureEnabled: bool,
    mouseXoffset: real,
    mouseYoffset: real,
    mouseScrollOffsetChanged: bool,
    mouseLeftButton: bool,
    mouseRightButton: bool,
    keyW: bool,
    keyS: bool,
    keyA: bool,
    keyD: bool,
    keySpace: bool,
    keyEscape: bool,
    keyLShift: bool,
    keyLCtrl: bool,
    keyPlus: bool,
    keyMinus: bool,
    keySpaceDouble: bool)

  /** A snapshot with its member initialisers: capture on, everything else off or zero. */
  const DefaultSnapshot := InputsSnapshot(
    framebufferResized := false, mouseCaptureEnabled := true,
    mouseXoffset := 0.0, mouseYoffset := 0.0, mouseScrollOffsetChanged := false,
    mouseLeftButton := false, mouseRightButton := false,
    keyW := false, keyS := false, keyA := false, keyD := false, keySpace := false,
    keyEscape := false, keyLShift := false, keyLCtrl := false,
    keyPlus := false, keyMinus := false, keySpaceDouble := false)

  /** What the window reports as down (`GLFW_PRESS`) when polled this frame. */
  datatype RawInputs = RawInputs(
    mouseLeft: bool, mouseRight: bool,
    keyW: bool, keyS: bool, keyA: bool, keyD: bool, keySpace: bool, keyEscape: bool,
    keyLeftShift: bool, keyLeftControl: bool, keyRightControl: bool,
    keyEqual: bool, keypadAdd: bool, keyMinus: bool, keypadSubtract: bool)

  /** The keys sampled without repeat logic, as the manager stores them. */
  datatype PlainKeys = PlainKeys(
    w: bool, s: bool, a: bool, d: bool, space: bool, escape: bool, lShift: bool, lCtrl: bool)

  const NoKeys := PlainKeys(false, false, false, false, false, false, false, false)

  /** The argument of a `glfwSetInputMode(window, GLFW_CURSOR, ...)` call. */
  datatype CursorMode = CursorDisabled | CursorNormal

  class InputsManager {
    var glfwTime: real

    var mouseCaptureEnabled: bool
    var firstMouse: bool
    var mouseLastX: real
    var mouseLastY: real
    var mouseXoffset: real
    var mouseYoffset: real

    var mouseScrollOffsetChanged: bool
    var mouseScrollXoffset: real
    var mouseScrollYoffset: real

    const mouseLeftButtonControl: KeyInputControl
    const mouseRightButtonControl: KeyInputControl
    const keyPlusControl: KeyInputControl
    const keyMinusControl: KeyInputControl
    const keySpaceDouble: KeyInputControl

    /** The eight `bool` members `keyW` ... `keyLCtrl`, held as one record. */
    var keys: PlainKeys

    var framebufferResized: bool
    var windowWidth: int
    var windowHeight: int

    /** The cursor modes requested from the window, oldest first. */
    var cursorModeRequests: seq<CursorMode>

    /** The five repeat controls, as a set. */
    function Controls(): set<KeyInputControl> {
      {mouseLeftButtonControl, mouseRightButtonControl, keyPlusControl, keyMinusControl, keySpaceDouble}
    }

    /**
     * The five controls are distinct objects, so updating one leaves the
     * others alone, and each is in a reachable state.
     */
    predicate Valid()
      reads Controls()
    {
      && Inv(mouseLeftButtonControl.State())
      && Inv(mouseRightButtonControl.State())
      && Inv(keyPlusControl.State())
      && Inv(keyMinusControl.State())
      && Inv(keySpaceDouble.State())
      && mouseLeftButtonControl != mouseRightButtonControl
      && mouseLeftButtonControl != keyPlusControl
      && mouseLeftButtonControl != keyMinusControl
      && mouseLeftButtonControl != keySpaceDouble
      && mouseRightButtonControl != keyPlusControl
      && mouseRightButtonControl != keyMinusControl
      && mouseRightButtonControl != keySpaceDouble
      && keyPlusControl != keyMinusControl
      && keyPlusControl != keySpaceDouble
      && keyMinusControl != keySpaceDouble
    }

    /**
     * The defaulted constructor with the member initialisers: capture on with
     * the cursor baseline pending, no offsets, no pending notifications, an
     * 800x600 framebuffer, five idle controls with the default timing.
     */
    constructor ()
      ensures Valid() && fresh(Controls())
      ensures mouseCaptureEnabled && firstMouse
      ensures mouseXoffset == 0.0 && mouseYoffset == 0.0
      ensures mouseLastX == 0.0 && mouseLastY == 0.0
      ensures mouseScrollXoffset == 0.0 && mouseScrollYoffset == 0.0
      ensures !framebufferResized && !mouseScrollOffsetChanged
      ensures windowWidth == 800 && windowHeight == 600
      ensures forall c :: c in Controls() ==> c.State() == Idle && c.Config() == DefaultTiming
      ensures cursorModeRequests == []
      ensures GetInputsSnapshot() == DefaultSnapshot
    {
      glfwTime := 0.0;
      mouseCaptureEnabled, firstMouse := true, true;
      mouseLastX, mouseLastY, mouseXoffset, mouseYoffset := 0.0, 0.0, 0.0, 0.0;
      mouseScrollOffsetChanged, mouseScrollXoffset, mouseScrollYoffset := false, 0.0, 0.0;
      mouseLeftButtonControl := new KeyInputControl();
      mouseRightButtonControl := new KeyInputControl();
      keyPlusControl := new KeyInputControl();
      keyMinusControl := new KeyInputControl();
      keySpaceDouble := new KeyInputControl();
      keys := NoKeys;
      framebufferResized, windowWidth, windowHeight := false, 800, 600;
      cursorModeRequests := [];
    }

    /**
     * One frame of sampling: the clock reading `now` and the window's raw
     * state (`raw`, and the cursor at (`cursorX`, `cursorY`)).
     */
    method PoolInputs(now: real, raw: RawInputs, cursorX: real, cursorY: real)
      requires Valid()
      modifies this`glfwTime, this`firstMouse, this`mouseLastX, this`mouseLastY
      modifies this`mouseXoffset, this`mouseYoffset
      modifies this`keys
      modifies Controls()
      ensures Valid()
      ensures glfwTime == now
      ensures MovedCursor(old(mouseCaptureEnabled), old(firstMouse), old(mouseLastX), old(mouseLastY),
                          old(mouseXoffset), old(mouseYoffset), cursorX, cursorY)
      ensures mouseLeftButtonControl.State() == Step(mouseLeftButtonControl.Config(), old(mouseLeftButtonControl.State()), raw.mouseLeft, now)
      ensures mouseRightButtonControl.State() == Step(mouseRightButtonControl.Config(), old(mouseRightButtonControl.State()), raw.mouseRight, now)
      ensures KeyboardPolled(raw, now)
    {
      glfwTime := now;
      PoolMouseMovement(cursorX, cursorY);
      PoolMouseInputs(raw.mouseRight, raw.mouseLeft, now);
      PollKeyboardInputs(raw, now);
    }

    /**
     * The cursor bookkeeping after one poll, from the state before it: with
     * capture off nothing changes (old offsets stay); otherwise a pending
     * baseline is taken from the current position (so the delta is zero),
     * the offsets are the motion since the last position with Y inverted,
     * and the current position becomes the last one.
     */
    ghost predicate MovedCursor(wasCapturing: bool, wasFirst: bool, lastX: real, lastY: real,
                                xOffset: real, yOffset: real, cursorX: real, cursorY: real)
      reads this
    {
      if !wasCapturing then
        && firstMouse == wasFirst && mouseLastX == lastX && mouseLastY == lastY
        && mouseXoffset == xOffset && mouseYoffset == yOffset
      else
        var (baseX, baseY) := if wasFirst then (cursorX, cursorY) else (lastX, lastY);
        && !firstMouse && mouseLastX == cursorX && mouseLastY == cursorY
        && mouseXoffset == cursorX - baseX && mouseYoffset == baseY - cursorY
    }

    method PoolMouseMovement(cursorX: real, cursorY: real)
      modifies this`firstMouse, this`mouseLastX, this`mouseLastY, this`mouseXoffset, this`mouseYoffset
      ensures MovedCursor(old(mouseCaptureEnabled), old(firstMouse), old(mouseLastX), old(mouseLastY),
                          old(mouseXoffset), old(mouseYoffset), cursorX, cursorY)
    {
      if !mouseCaptureEnabled {
        return;
      }
      if firstMouse {
        mouseLastX := cursorX;
        mouseLastY := cursorY;
        firstMouse := false;
      }
      var xoffset := cursorX - mouseLastX;
      var yoffset := mouseLastY - cursorY;
      mouseLastX := cursorX;
      mouseLastY := cursorY;
      mouseXoffset := xoffset;
      mouseYoffset := yoffset;
    }

    method PoolMouseInputs(rightDown: bool, leftDown: bool, now: real)
      requires Valid()
      modifies mouseRightButtonControl, mouseLeftButtonControl
      ensures Valid()
      ensures mouseRightButtonControl.State() == Step(mouseRightButtonControl.Config(), old(mouseRightButtonControl.State()), rightDown, now)
      ensures mouseLeftButtonControl.State() == Step(mouseLeftButtonControl.Config(), old(mouseLeftButtonControl.State()), leftDown, now)
    {
      mouseRightButtonControl.Update(rightDown, now);
      mouseLeftButtonControl.Update(leftDown, now);
    }

    /**
     * The keyboard state after `PollKeyboardInputs(raw, now)`: the eight
     * plain keys copy the raw state (either Control key counts as LCtrl),
     * and the Plus (`=` or keypad +), Minus (`-` or keypad -) and Space
     * controls each take one step.
     */
    twostate predicate KeyboardPolled(raw: RawInputs, now: real)
      reads this, keyPlusControl, keyMinusControl, keySpaceDouble
    {
      && PlainKeysPolled(raw)
      && keyPlusControl.State() == Step(keyPlusControl.Config(), old(keyPlusControl.State()), raw.keyEqual || raw.keypadAdd, now)
      && keyMinusControl.State() == Step(keyMinusControl.Config(), old(keyMinusControl.State()), raw.keyMinus || raw.keypadSubtract, now)
      && keySpaceDouble.State() == Step(keySpaceDouble.Config(), old(keySpaceDouble.State()), raw.keySpace, now)
    }

    /** The eight keys without repeat logic hold the raw state; either Control key counts as LCtrl. */
    predicate PlainKeysPolled(raw: RawInputs)
      reads this
    {
      && keys.w == raw.keyW && keys.s == raw.keyS && keys.a == raw.keyA && keys.d == raw.keyD
      && keys.space == raw.keySpace && keys.escape == raw.keyEscape && keys.lShift == raw.keyLeftShift
      && keys.lCtrl == (raw.keyLeftControl || raw.keyRightControl)
    }

    /** The eight plain keys follow the raw state; either Control key counts as LCtrl. */
    method PollPlainKeys(raw: RawInputs)
      modifies this`keys
      ensures PlainKeysPolled(raw)
    {
      var w, s, a, d, space, escape, lShift, lCtrl := false, false, false, false, false, false, false, false;
      if raw.keyW { w := true; }
      if raw.keyS { s := true; }
      if raw.keyA { a := true; }
      if raw.keyD { d := true; }
      if raw.keySpace { space := true; }
      if raw.keyEscape { escape := true; }
      if raw.keyLeftShift { lShift := true; }
      if raw.keyLeftControl || raw.keyRightControl { lCtrl := true; }
      keys := PlainKeys(w, s, a, d, space, escape, lShift, lCtrl);
    }

    method PollKeyboardInputs(raw: RawInputs, now: real)
      requires Valid()
      modifies this`keys
      modifies keyPlusControl, keyMinusControl, keySpaceDouble
      ensures Valid()
      ensures KeyboardPolled(raw, now)
    {
      PollPlainKeys(raw);
      var keyPlusPressed := raw.keyEqual || raw.keypadAdd;
      keyPlusControl.Update(keyPlusPressed, now);
      var keyMinusPressed := raw.keyMinus || raw.keypadSubtract;
      keyMinusControl.Update(keyMinusPressed, now);
      var keySpacePressed := raw.keySpace;
      keySpaceDouble.Update(keySpacePressed, now);
    }

    /**
     * The frame's snapshot, read without changing anything (in particular
     * the resized and scroll flags stay set): plain keys are copied, mouse
     * buttons, Plus and Minus report their control's press signal, and
     * KeySpaceDouble the Space control's double-press signal. Neither the
     * framebuffer size nor the scroll offsets travel in the snapshot.
     */
    function GetInputsSnapshot(): (s: InputsSnapshot)
      requires Valid()
      reads this, Controls()
      // a button or repeat key is only ever reported while it is held down
      ensures s.mouseLeftButton ==> mouseLeftButtonControl.isHeld
      ensures s.mouseRightButton ==> mouseRightButtonControl.isHeld
      ensures s.keyPlus ==> keyPlusControl.isHeld
      ensures s.keyMinus ==> keyMinusControl.isHeld
      // a double tap of Space is also reported as a Space activation
      ensures s.keySpaceDouble ==> keySpaceDouble.isHeld && keySpaceDouble.IsPressed()
      // the one-shot notifications are reported, not consumed
      ensures s.framebufferResized == framebufferResized
      ensures s.mouseScrollOffsetChanged == mouseScrollOffsetChanged
    {
      InputsSnapshot(
        framebufferResized := framebufferResized,
        mouseCaptureEnabled := mouseCaptureEnabled,
        mouseXoffset := mouseXoffset,
        mouseYoffset := mouseYoffset,
        mouseScrollOffsetChanged := mouseScrollOffsetChanged,
        mouseLeftButton := mouseLeftButtonControl.IsPressed(),
        mouseRightButton := mouseRightButtonControl.IsPressed(),
        keyW := keys.w, keyS := keys.s, keyA := keys.a, keyD := keys.d,
        keySpace := keys.space, keyEscape := keys.escape, keyLShift := keys.lShift, keyLCtrl := keys.lCtrl,
        keyPlus := keyPlusControl.IsPressed(),
        keyMinus := keyMinusControl.IsPressed(),
        keySpaceDouble := keySpaceDouble.IsDoublePressed())
    }

    method FramebufferSizeCallback(width: int, height: int)
      modifies this`windowWidth, this`windowHeight, this`framebufferResized
      ensures windowWidth == width && windowHeight == height && framebufferResized
    {
      windowWidth := width;
      windowHeight := height;
      framebufferResized := true;
    }

    method MouseScrollCallback(xoffset: real, yoffset: real)
      modifies this`mouseScrollXoffset, this`mouseScrollYoffset, this`mouseScrollOffsetChanged
      ensures mouseScrollXoffset == xoffset && mouseScrollYoffset == yoffset && mouseScrollOffsetChanged
    {
      mouseScrollXoffset := xoffset;
      mouseScrollYoffset := yoffset;
      mouseScrollOffsetChanged := true;
    }

    /**
     * Turning capture on always asks the window to hide and lock the cursor,
     * and re-arms the cursor baseline only when capture was off; turning it
     * off releases the cursor only when it was on.
     */
    method SetMouseCaptureEnabled(enabled: bool)
      modifies this`mouseCaptureEnabled, this`firstMouse, this`cursorModeRequests
      ensures mouseCaptureEnabled == enabled
      ensures firstMouse == (if enabled && !old(mouseCaptureEnabled) then true else old(firstMouse))
      ensures cursorModeRequests ==
                old(cursorModeRequests) +
                (if enabled then [CursorDisabled]
                 else if old(mouseCaptureEnabled) then [CursorNormal]
                 else [])
    {
      var wasEnabled := mouseCaptureEnabled;
      mouseCaptureEnabled := enabled;
      if enabled {
        cursorModeRequests := cursorModeRequests + [CursorDisabled];
        if !wasEnabled {
          firstMouse := true;
        }
      } else if !enabled && wasEnabled {
        cursorModeRequests := cursorModeRequests + [CursorNormal];
      }
    }

    function IsMouseCaptureEnabled(): bool
      reads this
    {
      mouseCaptureEnabled
    }

    /** Reads the stored size and consumes the resized flag. */
    method GetFramebufferSize() returns (width: int, height: int)
      modifies this`framebufferResized
      ensures width == windowWidth && height == windowHeight
      ensures !framebufferResized
    {
      width := windowWidth;
      height := windowHeight;
      framebufferResized := false;
    }

    /** Reads the stored scroll offsets and consumes the scroll-changed flag. */
    method GetMouseScrollOffset() returns (xoffset: real, yoffset: real)
      modifies this`mouseScrollOffsetChanged
      ensures xoffset == mouseScrollXoffset && yoffset == mouseScrollYoffset
      ensures !mouseScrollOffsetChanged
    {
      xoffset := mouseScrollXoffset;
      yoffset := mouseScrollYoffset;
      mouseScrollOffsetChanged := false;
    }
  }
}
