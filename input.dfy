/** Input state: the key and mouse-button state tables that the window
    callbacks update, the mouse position and scroll delta, the per-frame
    scroll reset, the cursor mode, and the pressed/released queries. The
    window callbacks are modelled as the methods they run. */
module Input {

  const GLFW_RELEASE: int := 0
  const GLFW_PRESS: int := 1
  const GLFW_REPEAT: int := 2

  const GLFW_CURSOR_NORMAL: int := 0x34001
  const GLFW_CURSOR_DISABLED: int := 0x34003

  datatype MouseInputMode = CursorNormal | CursorDisabled

  /** The stored state of a key after a key event with `action`: RELEASE
      releases it, PRESS or REPEAT presses it, any other action leaves it. */
  function KeyStateAfter(state: int, action: int): int
  {
    if action == GLFW_RELEASE then GLFW_RELEASE
    else if action == GLFW_REPEAT || action == GLFW_PRESS then GLFW_PRESS
    else state
  }

  /** The stored state of a mouse button after a button event: only RELEASE
      and PRESS change it. */
  function ButtonStateAfter(state: int, action: int): int
  {
    if action == GLFW_RELEASE then GLFW_RELEASE
    else if action == GLFW_PRESS then GLFW_PRESS
    else state
  }

  /** A state that is RELEASE or PRESS, the only two values ever stored. */
  predicate IsStoredState(state: int)
  {
    state == GLFW_RELEASE || state == GLFW_PRESS
  }

  /** Events keep states stored; a REPEAT presses a key like PRESS but
      leaves a button as it was; applying the same event twice is the same
      as once. */
  lemma EventStates(state: int, action: int)
    ensures IsStoredState(state) ==> IsStoredState(KeyStateAfter(state, action)) && IsStoredState(ButtonStateAfter(state, action))
    ensures KeyStateAfter(state, GLFW_REPEAT) == KeyStateAfter(state, GLFW_PRESS) == GLFW_PRESS
    ensures ButtonStateAfter(state, GLFW_REPEAT) == state
    ensures KeyStateAfter(KeyStateAfter(state, action), action) == KeyStateAfter(state, action)
    ensures ButtonStateAfter(ButtonStateAfter(state, action), action) == ButtonStateAfter(state, action)
    ensures KeyStateAfter(state, action) == GLFW_PRESS <==> action == GLFW_PRESS || action == GLFW_REPEAT || (action != GLFW_RELEASE && state == GLFW_PRESS)
  {
  }

  /** The GLFW cursor mode for a mouse input mode. */
  function CursorModeOf(mode: MouseInputMode): int
  {
    match mode
    case CursorNormal => GLFW_CURSOR_NORMAL
    case CursorDisabled => GLFW_CURSOR_DISABLED
  }

  class Input {
    const keys: array<int>
    const buttons: array<int>
    var mouseInputMode: MouseInputMode
    var mousePos: (real, real)
    var scrollDelta: real

    /** Every stored key and button state is RELEASE or PRESS. */
    ghost predicate Valid()
      reads this, keys, buttons
    {
      && keys != buttons
      && (forall i :: 0 <= i < keys.Length ==> IsStoredState(keys[i]))
      && (forall i :: 0 <= i < buttons.Length ==> IsStoredState(buttons[i]))
    }

    /** Every key and button released, the cursor normal, the mouse at the
        origin and no scroll. */
    constructor (numKeys: nat, numButtons: nat)
      ensures Valid()
      ensures keys.Length == numKeys && buttons.Length == numButtons
      ensures forall i :: 0 <= i < numKeys ==> keys[i] == GLFW_RELEASE
      ensures forall i :: 0 <= i < numButtons ==> buttons[i] == GLFW_RELEASE
      ensures mouseInputMode == CursorNormal && mousePos == (0.0, 0.0) && scrollDelta == 0.0
      ensures fresh(keys) && fresh(buttons)
    {
      mouseInputMode := CursorNormal;
      mousePos := (0.0, 0.0);
      scrollDelta := 0.0;
      var k := new int[numKeys];
      for i := 0 to numKeys
        invariant forall j :: 0 <= j < i ==> k[j] == GLFW_RELEASE
      {
        k[i] := GLFW_RELEASE;
      }
      var b := new int[numButtons];
      for i := 0 to numButtons
        invariant forall j :: 0 <= j < i ==> b[j] == GLFW_RELEASE
        invariant forall j :: 0 <= j < numKeys ==> k[j] == GLFW_RELEASE
      {
        b[i] := GLFW_RELEASE;
      }
      keys := k;
      buttons := b;
    }

    /** The key callback. */
    method OnKey(key: int, action: int)
      requires Valid() && 0 <= key < keys.Length
      modifies keys
      ensures Valid()
      ensures keys[..] == old(keys[..])[key := KeyStateAfter(old(keys[key]), action)]
    {
      if action == GLFW_RELEASE {
        keys[key] := GLFW_RELEASE;
      } else if action == GLFW_REPEAT || action == GLFW_PRESS {
        keys[key] := GLFW_PRESS;
      }
    }

    /** The mouse-button callback. */
    method OnMouseButton(button: int, action: int)
      requires Valid() && 0 <= button < buttons.Length
      modifies buttons
      ensures Valid()
      ensures buttons[..] == old(buttons[..])[button := ButtonStateAfter(old(buttons[button]), action)]
    {
      if action == GLFW_RELEASE {
        buttons[button] := GLFW_RELEASE;
      } else if action == GLFW_PRESS {
        buttons[button] := GLFW_PRESS;
      }
    }

    /** The mouse-position callback overwrites the position. */
    method OnMousePos(position: (real, real))
      modifies this`mousePos
      ensures mousePos == position
    {
      mousePos := position;
    }

    /** The scroll callback overwrites the delta; it does not add to it. */
    method OnMouseScroll(delta: real)
      modifies this`scrollDelta
      ensures scrollDelta == delta
    {
      scrollDelta := delta;
    }

    /** Per frame: forget the scroll delta. */
    method Update()
      modifies this`scrollDelta
      ensures scrollDelta == 0.0
    {
      scrollDelta := 0.0;
    }

    /** Records the mode and returns the cursor mode applied to the focus
        window. */
    method SetMouseInputMode(mode: MouseInputMode) returns (glfwMode: int)
      modifies this`mouseInputMode
      ensures mouseInputMode == mode
      ensures glfwMode == CursorModeOf(mode)
    {
      glfwMode := GLFW_CURSOR_NORMAL;
      mouseInputMode := mode;
      match mode {
        case CursorNormal => glfwMode := GLFW_CURSOR_NORMAL;
        case CursorDisabled => glfwMode := GLFW_CURSOR_DISABLED;
      }
    }

    predicate IsKeyPressed(key: int)
      requires 0 <= key < keys.Length
      reads this, keys
    {
      keys[key] == GLFW_PRESS
    }

    predicate IsKeyReleased(key: int)
      requires 0 <= key < keys.Length
      reads this, keys
    {
      keys[key] == GLFW_RELEASE
    }

    predicate IsMousePressed(button: int)
      requires 0 <= button < buttons.Length
      reads this, buttons
    {
      buttons[button] == GLFW_PRESS
    }

    predicate IsMouseReleased(button: int)
      requires 0 <= button < buttons.Length
      reads this, buttons
    {
      buttons[button] == GLFW_RELEASE
    }

    function GetMouseScrollDelta(): real
      reads this
    {
      scrollDelta
    }
  }

  /** In a valid input state every key and every button is either pressed
      or released, never both. */
  lemma QueriesExclusive(input: Input, key: int, button: int)
    requires input.Valid()
    requires 0 <= key < input.keys.Length && 0 <= button < input.buttons.Length
    ensures input.IsKeyPressed(key) != input.IsKeyReleased(key)
    ensures input.IsMousePressed(button) != input.IsMouseReleased(button)
  {
  }

  /** A key event is seen by the queries as the event says: PRESS or REPEAT
      makes the key pressed, RELEASE released, and other keys read as
      before. */
  method KeyEventQueries(input: Input, key: int, other: int, action: int)
    requires input.Valid() && 0 <= key < input.keys.Length && 0 <= other < input.keys.Length
    requires action == GLFW_PRESS || action == GLFW_REPEAT || action == GLFW_RELEASE
    requires other != key
    modifies input.keys
    ensures input.Valid()
    ensures input.IsKeyPressed(key) <==> action != GLFW_RELEASE
    ensures input.IsKeyReleased(key) <==> action == GLFW_RELEASE
    ensures input.IsKeyPressed(other) == old(input.IsKeyPressed(other))
  {
    input.OnKey(key, action);
    assert input.keys[key] == input.keys[..][key];
    assert input.keys[other] == input.keys[..][other];
  }
}
