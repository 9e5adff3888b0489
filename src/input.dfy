/**
 * Keyboard state with edge detection. Key events record both the
 * physical key code and the lower-cased key name as held or released;
 * once per frame `update` derives the keys pressed since the previous
 * frame. Player controls and menu navigation are read from the two maps.
 * The older JavaScript input manager has the same logic and is covered
 * by this module.
 */
module Input {

  /** A map entry that is present and true; a missing key reads as released. */
  predicate Down(m: map<string, bool>, key: string) {
    key in m && m[key]
  }

  /** ASCII lower-casing of one character. */
  function LowerChar(c: char): (r: char)
    ensures 'A' <= c <= 'Z' ==> 'a' <= r <= 'z'
    ensures !('A' <= c <= 'Z') ==> r == c
  {
    if 'A' <= c <= 'Z' then (c as int - 'A' as int + 'a' as int) as char else c
  }

  /** A key name lower-cased character by character. */
  function Lower(s: string): (r: string)
    ensures |r| == |s|
    ensures forall i :: 0 <= i < |s| ==> r[i] == LowerChar(s[i])
  {
    seq(|s|, i requires 0 <= i < |s| => LowerChar(s[i]))
  }

  /** The keys held now and not held on the previous frame, each mapped to true. */
  function JustPressed(keys: map<string, bool>, previous: map<string, bool>): (r: map<string, bool>)
    ensures forall k :: k in r ==> r[k]
  {
    map k | k in keys && keys[k] && !Down(previous, k) :: true
  }

  /** A key counts as just pressed exactly when it is held now and was not before. */
  lemma JustPressedIsRisingEdge(keys: map<string, bool>, previous: map<string, bool>, k: string)
    ensures Down(JustPressed(keys, previous), k) <==> Down(keys, k) && !Down(previous, k)
  {
  }

  /**
   * Two frames without key events in between: the second reports nothing
   * as just pressed, so a held key fires once.
   */
  lemma HeldKeyFiresOnce(keys: map<string, bool>)
    ensures JustPressed(keys, keys) == map[]
  {
    assert forall k :: k !in JustPressed(keys, keys);
  }

  /**
   * Lower-cased key names never read `Shift`: that entry can only come
   * from a key code spelled exactly so.
   */
  lemma LowerNeverShift(key: string)
    ensures Lower(key) != "Shift"
  {
    if |key| == 5 {
      assert Lower(key)[0] == LowerChar(key[0]) != 'S';
    }
  }

  /** What one player's controls read this frame. */
  datatype PlayerInput = PlayerInput(left: bool, right: bool, up: bool, down: bool,
                                     attack: bool, special: bool)

  class InputManager {
    var keys: map<string, bool>
    var keysJustPressed: map<string, bool>
    var previousKeys: map<string, bool>

    constructor()
      ensures keys == map[] && keysJustPressed == map[] && previousKeys == map[]
    {
      keys := map[];
      keysJustPressed := map[];
      previousKeys := map[];
    }

    /** A key goes down: its code and its lower-cased name are held; no other entry changes. */
    method KeyDown(code: string, key: string)
      modifies this`keys
      ensures Down(keys, code) && Down(keys, Lower(key))
      ensures forall k :: k != code && k != Lower(key) ==> Down(keys, k) == Down(old(keys), k)
      ensures keys.Keys == old(keys).Keys + {code, Lower(key)}
    {
      keys := keys[code := true];
      keys := keys[Lower(key) := true];
    }

    /** A key goes up: its code and its lower-cased name are released; no other entry changes. */
    method KeyUp(code: string, key: string)
      modifies this`keys
      ensures !Down(keys, code) && !Down(keys, Lower(key))
      ensures forall k :: k != code && k != Lower(key) ==> Down(keys, k) == Down(old(keys), k)
      ensures keys.Keys == old(keys).Keys + {code, Lower(key)}
    {
      keys := keys[code := false];
      keys := keys[Lower(key) := false];
    }

    /**
     * The per-frame step: record the rising edges of every key seen so
     * far and remember the current keys for the next frame.
     */
    method Update()
      modifies this`keysJustPressed, this`previousKeys
      ensures keysJustPressed == JustPressed(keys, old(previousKeys))
      ensures previousKeys == keys
    {
      var pressed: map<string, bool> := map[];
      var remaining := keys.Keys;
      while remaining != {}
        invariant remaining <= keys.Keys
        invariant pressed == map k | k in keys.Keys - remaining && keys[k] && !Down(previousKeys, k) :: true
        decreases remaining
      {
        var k :| k in remaining;
        if keys[k] && !Down(previousKeys, k) {
          pressed := pressed[k := true];
        }
        remaining := remaining - {k};
      }
      keysJustPressed := pressed;
      previousKeys := keys;
    }

    predicate IsDown(key: string)
      reads this
    {
      Down(keys, key)
    }

    predicate IsJustPressed(key: string)
      reads this
    {
      Down(keysJustPressed, key)
    }

    /** Player one: WASD by name or code to move, Space to attack, E to use the special. */
    function GetPlayer1Input(): (r: PlayerInput)
      reads this
      ensures r.left <==> IsDown("a") || IsDown("KeyA")
      ensures r.right <==> IsDown("d") || IsDown("KeyD")
      ensures r.attack <==> IsJustPressed("Space")
    {
      PlayerInput(
        left := IsDown("a") || IsDown("KeyA"),
        right := IsDown("d") || IsDown("KeyD"),
        up := IsDown("w") || IsDown("KeyW"),
        down := IsDown("s") || IsDown("KeyS"),
        attack := IsJustPressed("Space"),
        special := IsJustPressed("e") || IsJustPressed("KeyE"))
    }

    /** Player two: the arrows to move, Enter to attack, Shift to use the special. */
    function GetPlayer2Input(): (r: PlayerInput)
      reads this
      ensures r.left <==> IsDown("ArrowLeft")
      ensures r.right <==> IsDown("ArrowRight")
      ensures r.attack <==> IsJustPressed("Enter")
    {
      PlayerInput(
        left := IsDown("ArrowLeft"),
        right := IsDown("ArrowRight"),
        up := IsDown("ArrowUp"),
        down := IsDown("ArrowDown"),
        attack := IsJustPressed("Enter"),
        special := IsJustPressed("Shift") || IsJustPressed("ShiftRight"))
    }

    predicate IsConfirm()
      reads this
    {
      IsJustPressed("Space") || IsJustPressed("Enter")
    }

    predicate IsCancel()
      reads this
    {
      IsJustPressed("Escape")
    }

    predicate IsMenuUp()
      reads this
    {
      IsJustPressed("w") || IsJustPressed("KeyW") || IsJustPressed("ArrowUp")
    }

    predicate IsMenuDown()
      reads this
    {
      IsJustPressed("s") || IsJustPressed("KeyS") || IsJustPressed("ArrowDown")
    }

    predicate IsMenuLeft()
      reads this
    {
      IsJustPressed("a") || IsJustPressed("KeyA") || IsJustPressed("ArrowLeft")
    }

    predicate IsMenuRight()
      reads this
    {
      IsJustPressed("d") || IsJustPressed("KeyD") || IsJustPressed("ArrowRight")
    }
  }

  /**
   * Holding Space across two frames: the first frame's update reports an
   * attack, and a second update with no key event in between does not.
   */
  method HoldSpace(im: InputManager) returns (first: bool, second: bool)
    requires Down(im.keys, "Space") && !Down(im.previousKeys, "Space")
    modifies im
    ensures first && !second
  {
    im.Update();
    first := im.GetPlayer1Input().attack;
    JustPressedIsRisingEdge(im.keys, old(im.previousKeys), "Space");
    im.Update();
    second := im.GetPlayer1Input().attack;
    HeldKeyFiresOnce(im.keys);
  }
}
