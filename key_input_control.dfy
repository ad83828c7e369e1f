/**
 * The key-repeat / double-press state machine of
 * `InputsManager::KeyInputControl` (inputs_manager.hpp and inputs_manager.cpp).
 *
 * Each call to `Update` turns "is the key down now" and the current clock
 * reading into two per-frame signals: `isPressed` (initial press, then a first
 * repeat after `keyRepeatDelay`, then one every `keyRepeatInterval`) and
 * `isDoublePressed` (two up->down edges no more than `doublePressDelay` apart).
 * The clock (`glfwGetTime`) becomes the parameter `now`; times are exact reals.
 */
module KeyRepeat {

  /** The three timing parameters of a control, in seconds. */
  datatype Timing = Timing(repeatDelay: real, repeatInterval: real, doublePressDelay: real)

  /** Timing every control is built with: 0.6 s delay, 0.4 s interval, 0.5 s window. */
  const DefaultTiming := Timing(0.6, 0.4, 0.5)

  /** The mutable fields of a control, as one value. */
  datatype ControlState = ControlState(
    wasDown: bool,
    isPressed: bool,
    isHeld: bool,
    firstDelay: bool,
    lastPressedTime: real,
    isDoublePressed: bool,
    lastPressedTimeDouble: real)

  /** A control that has never seen its key down. */
  const Idle := ControlState(false, false, false, true, 0.0, false, 0.0)

  /**
   * What every reachable state satisfies: the control counts the key as held
   * exactly when it saw it down last time, a double press is always also a
   * press, and an up key leaves the repeat machinery disarmed and both
   * signals low.
   */
  predicate Inv(s: ControlState) {
    && s.isHeld == s.wasDown
    && (s.isDoublePressed ==> s.isPressed)
    && (!s.wasDown ==> !s.isPressed && !s.isDoublePressed && s.firstDelay && s.lastPressedTime == 0.0)
  }

  /** 0.0 is the "no remembered press" sentinel of the double-press detector. */
  function Pending(s: ControlState): (r: nat) {
    if s.lastPressedTimeDouble != 0.0 then 1 else 0
  }

  /** Up->down edge between the previous update and this one. */
  predicate FreshPress(s: ControlState, isKeyDown: bool) {
    isKeyDown && !s.wasDown
  }

  /** The wait that must elapse since the last activation before the next repeat. */
  function RepeatWait(t: Timing, s: ControlState): (r: real) {
    if s.firstDelay then t.repeatDelay else t.repeatInterval
  }

  /**
   * One update, written field by field: the reference that the imperative
   * `KeyInputControl.Update` is proved against.
   */
  function Step(t: Timing, s: ControlState, isKeyDown: bool, now: real): (r: ControlState)
    // the raw state is remembered for the next update
    ensures r.wasDown == isKeyDown
    // the pressed signal is only ever raised for a key that is down
    ensures r.isPressed ==> isKeyDown
    // an up->down edge: pressed and held, first delay re-armed, activation stamped
    ensures FreshPress(s, isKeyDown) ==>
              r.isPressed && r.isHeld && r.firstDelay && r.lastPressedTime == now
    // a held key fires exactly when the current wait has elapsed; firing
    // ends the first delay and re-stamps the activation time
    ensures isKeyDown && s.wasDown && s.isHeld ==>
              && r.isHeld
              && (r.isPressed <==> now - s.lastPressedTime >= RepeatWait(t, s))
              && r.firstDelay == (s.firstDelay && !r.isPressed)
              && r.lastPressedTime == (if r.isPressed then now else s.lastPressedTime)
    // release resets the repeat machinery
    ensures !isKeyDown ==> !r.isPressed && !r.isHeld && r.firstDelay && r.lastPressedTime == 0.0
    // a double press is an edge close enough to a remembered earlier edge
    ensures r.isDoublePressed <==>
              FreshPress(s, isKeyDown) && s.lastPressedTimeDouble != 0.0 &&
              now - s.lastPressedTimeDouble <= t.doublePressDelay
    // detection consumes the remembered edge; any other edge becomes the new
    // candidate; without an edge (holding, releasing) the candidate is kept
    ensures r.lastPressedTimeDouble ==
              if r.isDoublePressed then 0.0
              else if FreshPress(s, isKeyDown) then now
              else s.lastPressedTimeDouble
    ensures Inv(s) ==> Inv(r)
  {
    var edge := FreshPress(s, isKeyDown);
    var repeating := isKeyDown && s.wasDown && s.isHeld;
    var due := now - s.lastPressedTime >= RepeatWait(t, s);
    var double := edge && s.lastPressedTimeDouble != 0.0 &&
                  now - s.lastPressedTimeDouble <= t.doublePressDelay;
    ControlState(
      wasDown := isKeyDown,
      isPressed := if !isKeyDown then false else if edge then true else if repeating then due else s.isPressed,
      isHeld := if !isKeyDown then false else if edge then true else s.isHeld,
      firstDelay := if !isKeyDown || edge then true else if repeating && due then false else s.firstDelay,
      lastPressedTime := if !isKeyDown then 0.0 else if edge || (repeating && due) then now else s.lastPressedTime,
      isDoublePressed := double,
      lastPressedTimeDouble := if double then 0.0 else if edge then now else s.lastPressedTimeDouble)
  }

  /** `InputsManager::KeyInputControl`: one tracked key or button. */
  class KeyInputControl {
    const keyRepeatDelay: real
    const keyRepeatInterval: real
    const doublePressDelay: real

    var wasDown: bool
    var isPressed: bool
    var isHeld: bool
    var firstDelay: bool
    var lastPressedTime: real
    var isDoublePressed: bool
    var lastPressedTimeDouble: real

    function Config(): Timing {
      Timing(keyRepeatDelay, keyRepeatInterval, doublePressDelay)
    }

    function State(): ControlState
      reads this
    {
      ControlState(wasDown, isPressed, isHeld, firstDelay, lastPressedTime,
                   isDoublePressed, lastPressedTimeDouble)
    }

    /** The defaulted constructor: default timing, idle state. */
    constructor ()
      ensures Config() == DefaultTiming
      ensures State() == Idle && Inv(State())
    {
      keyRepeatDelay, keyRepeatInterval, doublePressDelay := 0.6, 0.4, 0.5;
      wasDown, isPressed, isHeld, firstDelay := false, false, false, true;
      lastPressedTime := 0.0;
      isDoublePressed, lastPressedTimeDouble := false, 0.0;
    }

    /** Advances the control by one frame; `now` is the clock reading. */
    method Update(isKeyDown: bool, now: real)
      modifies this
      ensures State() == Step(Config(), old(State()), isKeyDown, now)
    {
      if isKeyDown {
        if !wasDown {
          isPressed := true;
          isHeld := true;
          firstDelay := true;
          lastPressedTime := now;
        } else if isHeld {
          if firstDelay {
            if now - lastPressedTime >= keyRepeatDelay {
              isPressed := true;
              firstDelay := false;
              lastPressedTime := now;
            } else {
              isPressed := false;
            }
          } else {
            if now - lastPressedTime >= keyRepeatInterval {
              isPressed := true;
              lastPressedTime := now;
            } else {
              isPressed := false;
            }
          }
        }
      } else {
        isPressed := false;
        isHeld := false;
        firstDelay := true;
        lastPressedTime := 0.0;
      }

      isDoublePressed := false;
      if isKeyDown && !wasDown {
        if lastPressedTimeDouble != 0.0 && now - lastPressedTimeDouble <= doublePressDelay {
          isDoublePressed := true;
          lastPressedTimeDouble := 0.0;
        } else {
          lastPressedTimeDouble := now;
        }
      }

      wasDown := isKeyDown;
    }

    function IsPressed(): bool
      reads this
    {
      isPressed
    }

    function IsDoublePressed(): bool
      reads this
    {
      isDoublePressed
    }
  }
}
