/**
 * How a frame loop uses `InputsManager`: the one-shot notifications are
 * consumed by the getters, the cursor delta starts from rest whenever capture
 * (re)starts, and a frame's snapshot follows the raw state it polled.
 */
module InputsScenarios {
  import opened KeyRepeat
  import opened Inputs

  /**
   * One frame: poll the window, then take the snapshot. The plain keys echo
   * the raw state, every reported button or repeat key is down, and a button
   * or repeat key that just went down is reported on this very frame.
   */
  method Frame(m: InputsManager, now: real, raw: RawInputs, cursorX: real, cursorY: real)
    returns (s: InputsSnapshot)
    requires m.Valid()
    modifies m`glfwTime, m`firstMouse, m`mouseLastX, m`mouseLastY, m`mouseXoffset, m`mouseYoffset, m`keys
    modifies m.Controls()
    ensures m.Valid()
    ensures s.keyW == raw.keyW && s.keyS == raw.keyS && s.keyA == raw.keyA && s.keyD == raw.keyD
    ensures s.keySpace == raw.keySpace && s.keyEscape == raw.keyEscape && s.keyLShift == raw.keyLeftShift
    ensures s.keyLCtrl == (raw.keyLeftControl || raw.keyRightControl)
    ensures s.mouseLeftButton ==> raw.mouseLeft
    ensures s.mouseRightButton ==> raw.mouseRight
    ensures s.keyPlus ==> raw.keyEqual || raw.keypadAdd
    ensures s.keyMinus ==> raw.keyMinus || raw.keypadSubtract
    ensures s.keySpaceDouble ==> raw.keySpace
    ensures raw.mouseLeft && !old(m.mouseLeftButtonControl.wasDown) ==> s.mouseLeftButton
    ensures raw.mouseRight && !old(m.mouseRightButtonControl.wasDown) ==> s.mouseRightButton
    ensures (raw.keyEqual || raw.keypadAdd) && !old(m.keyPlusControl.wasDown) ==> s.keyPlus
    ensures (raw.keyMinus || raw.keypadSubtract) && !old(m.keyMinusControl.wasDown) ==> s.keyMinus
    ensures s.mouseCaptureEnabled == m.mouseCaptureEnabled
    ensures s.mouseXoffset == m.mouseXoffset && s.mouseYoffset == m.mouseYoffset
    ensures m.MovedCursor(old(m.mouseCaptureEnabled), old(m.firstMouse), old(m.mouseLastX), old(m.mouseLastY),
                          old(m.mouseXoffset), old(m.mouseYoffset), cursorX, cursorY)
  {
    m.PoolInputs(now, raw, cursorX, cursorY);
    s := m.GetInputsSnapshot();
  }

  /**
   * A resize is reported by every snapshot until the size is fetched, and the
   * fetch returns the size the callback stored.
   */
  method ResizeReportedUntilFetched(width: int, height: int)
    returns (before: InputsSnapshot, w: int, h: int, after: InputsSnapshot)
    ensures before.framebufferResized && !after.framebufferResized
    ensures w == width && h == height
  {
    var m := new InputsManager();
    m.FramebufferSizeCallback(width, height);
    before := m.GetInputsSnapshot();
    w, h := m.GetFramebufferSize();
    after := m.GetInputsSnapshot();
  }

  /** Scrolling is reported once: fetching the offsets clears the flag. */
  method ScrollReportedUntilFetched(dx: real, dy: real)
    returns (before: InputsSnapshot, x: real, y: real, after: InputsSnapshot)
    ensures before.mouseScrollOffsetChanged && !after.mouseScrollOffsetChanged
    ensures x == dx && y == dy
  {
    var m := new InputsManager();
    m.MouseScrollCallback(dx, dy);
    before := m.GetInputsSnapshot();
    x, y := m.GetMouseScrollOffset();
    after := m.GetInputsSnapshot();
  }

  /** Before any scroll callback, fetching the scroll offsets returns (0, 0). */
  method ScrollBeforeCallbackIsZero() returns (x: real, y: real, after: InputsSnapshot)
    ensures x == 0.0 && y == 0.0 && !after.mouseScrollOffsetChanged
  {
    var m := new InputsManager();
    x, y := m.GetMouseScrollOffset();
    after := m.GetInputsSnapshot();
  }

  /**
   * Releasing and recapturing the mouse re-arms the baseline: the first frame
   * after recapture reports no motion, however far the cursor travelled while
   * it was free, and the window was asked to lock, release and lock again.
   */
  method RecaptureStartsAtRest(x0: real, y0: real, x1: real, y1: real)
    returns (first: InputsSnapshot, recaptured: InputsSnapshot, requests: seq<CursorMode>)
    ensures first.mouseXoffset == 0.0 && first.mouseYoffset == 0.0
    ensures recaptured.mouseCaptureEnabled
    ensures recaptured.mouseXoffset == 0.0 && recaptured.mouseYoffset == 0.0
    ensures requests == [CursorNormal, CursorDisabled]
  {
    var m := new InputsManager();
    var idle := RawInputs(false, false, false, false, false, false, false, false,
                          false, false, false, false, false, false, false);
    first := Frame(m, 0.0, idle, x0, y0);
    m.SetMouseCaptureEnabled(false);
    m.SetMouseCaptureEnabled(true);
    recaptured := Frame(m, 0.1, idle, x1, y1);
    requests := m.cursorModeRequests;
  }

  /**
   * While capture is off the cursor is not tracked: a frame leaves the
   * offsets of the last captured frame in the snapshot.
   */
  method FreeCursorKeepsLastDelta(x0: real, y0: real, x1: real, y1: real, x2: real, y2: real)
    returns (moved: InputsSnapshot, free: InputsSnapshot)
    ensures moved.mouseXoffset == x1 - x0 && moved.mouseYoffset == y0 - y1
    ensures !free.mouseCaptureEnabled
    ensures free.mouseXoffset == moved.mouseXoffset && free.mouseYoffset == moved.mouseYoffset
  {
    var m := new InputsManager();
    var idle := RawInputs(false, false, false, false, false, false, false, false,
                          false, false, false, false, false, false, false);
    var _ := Frame(m, 0.0, idle, x0, y0);
    moved := Frame(m, 0.1, idle, x1, y1);
    m.SetMouseCaptureEnabled(false);
    free := Frame(m, 0.2, idle, x2, y2);
  }
}
