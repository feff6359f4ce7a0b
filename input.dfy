/** The keyboard mapping shared by handleKey and the on-screen buttons. */
module Input {
  import opened Wrappers
  import opened Text
  import opened Physics

  /** The four on-screen buttons, whose element ids are 'btn-up', 'btn-down', 'btn-left', 'btn-right'. */
  datatype Button = Up | Down | Left | Right

  /** The key names, lower-cased, that stand for button `b`: a letter and an arrow. */
  predicate NamesButton(k: string, b: Button) {
    match b
    case Up => k == "w" || k == "arrowup"
    case Down => k == "s" || k == "arrowdown"
    case Left => k == "a" || k == "arrowleft"
    case Right => k == "d" || k == "arrowright"
  }

  /**
   * mapKeyToBtnId: WASD and the arrow keys, in any letter case.  A key maps
   * to a button exactly when its lower-cased name is one of that button's
   * names; no name belongs to two buttons.
   */
  function MapKeyToBtnId(key: string): (r: Option<Button>)
    ensures forall b :: r == Some(b) <==> NamesButton(Lower(key), b)
  {
    if |key| == 0 then None
    else
      var k := Lower(key);
      if k == "w" || k == "arrowup" then Some(Up)
      else if k == "s" || k == "arrowdown" then Some(Down)
      else if k == "a" || k == "arrowleft" then Some(Left)
      else if k == "d" || k == "arrowright" then Some(Right)
      else None
  }

  /** The `keys` entry each button drives (setupTouchControls). */
  function Press(keys: Keys, b: Button, down: bool): Keys {
    match b
    case Up => keys.(w := down)
    case Down => keys.(s := down)
    case Left => keys.(a := down)
    case Right => keys.(d := down)
  }

  /** The mapping ignores letter case. */
  lemma MapKeyIgnoresCase(key: string)
    ensures MapKeyToBtnId(Lower(key)) == MapKeyToBtnId(key)
  {
    LowerIdempotent(key);
  }
}
