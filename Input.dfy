// Keyboard and mouse edge detection: the state of every key and button in
// this frame and in the previous one, keyed by SDL key code or button number.
module Input {

  /** A map entry's value, with an absent entry counting as released. */
  function Held(m: map<int, bool>, code: int): bool
  {
    code in m && m[code]
  }

  class InputState {
    var keys: map<int, bool>
    var keysPrev: map<int, bool>
    var mouseButtons: map<int, bool>
    var mouseButtonsPrev: map<int, bool>
    var mouseX: int
    var mouseY: int

    /** Nothing has been recorded: no key or button is held now or in the previous frame. */
    predicate Idle()
      reads this
    {
      keys == map[] && keysPrev == map[] && mouseButtons == map[] && mouseButtonsPrev == map[]
    }

    constructor()
      ensures Idle() && mouseX == 0 && mouseY == 0
    {
      keys, keysPrev := map[], map[];
      mouseButtons, mouseButtonsPrev := map[], map[];
      mouseX, mouseY := 0, 0;
    }

    function IsKeyDown(key: int): (r: bool)
      reads this
      ensures r <==> key in keys && keys[key]
    {
      Held(keys, key)
    }

    /** Pressed exactly when held in this frame and not in the previous one. */
    function IsKeyPressed(key: int): (r: bool)
      reads this
      ensures r <==> IsKeyDown(key) && !(key in keysPrev && keysPrev[key])
    {
      Held(keys, key) && !Held(keysPrev, key)
    }

    function IsMouseButtonDown(button: int): (r: bool)
      reads this
      ensures r <==> button in mouseButtons && mouseButtons[button]
    {
      Held(mouseButtons, button)
    }

    /** Pressed exactly when held in this frame and not in the previous one. */
    function IsMouseButtonPressed(button: int): (r: bool)
      reads this
      ensures r <==> IsMouseButtonDown(button) && !(button in mouseButtonsPrev && mouseButtonsPrev[button])
    {
      Held(mouseButtons, button) && !Held(mouseButtonsPrev, button)
    }

    method GetMousePosition() returns (x: int, y: int)
      ensures x == mouseX && y == mouseY
    {
      x, y := mouseX, mouseY;
    }

    /** End of frame: this frame's state becomes the previous one, so nothing is pressed until it changes. */
    method Update()
      modifies this`keysPrev, this`mouseButtonsPrev
      ensures keysPrev == keys && mouseButtonsPrev == mouseButtons
      ensures forall k :: !IsKeyPressed(k)
      ensures forall b :: !IsMouseButtonPressed(b)
      ensures old(Idle()) ==> Idle()
    {
      mouseButtonsPrev := mouseButtons;
      keysPrev := keys;
    }

    /** SDL events are not recorded: the maps stay as they are. */
    method HandleEvent()
      ensures Idle() ==> forall k :: !IsKeyDown(k) && !IsMouseButtonDown(k)
    {
    }
  }

  /** An input that has recorded nothing reports every key and button as up and unpressed. */
  lemma IdleInputReportsNothing(input: InputState, code: int)
    requires input.Idle()
    ensures !input.IsKeyDown(code) && !input.IsKeyPressed(code)
    ensures !input.IsMouseButtonDown(code) && !input.IsMouseButtonPressed(code)
  {
  }
}
