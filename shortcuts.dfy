/** The keyboard dispatch of keyPressEvent: a table of plain keys, consulted
    first whatever the modifiers, and a table of Ctrl keys, consulted only
    when the plain table has no entry and Ctrl is held. */
module Shortcuts {
  import opened Options
  import opened Tools

  /** The keys the two tables mention; every other key is OtherKey. */
  datatype Key = KeyH | KeyF | KeyL | KeyN | KeyR | KeyC | KeyE | KeyEscape
               | KeyD | KeyZ | KeyS | OtherKey(code: int)

  /** What a key press asks the application to do. */
  datatype Command = PanelToggle | ModeSelect(tool: Tool) | Quit
                   | DrawModeToggle | CanvasClear | UndoAction | Export | NoCommand

  /** The plain-key table. */
  function PlainShortcut(k: Key): Option<Command>
  {
    match k
    case KeyH => Some(PanelToggle)
    case KeyF => Some(ModeSelect(Free))
    case KeyL => Some(ModeSelect(Highlighter))
    case KeyN => Some(ModeSelect(StraightLine))
    case KeyR => Some(ModeSelect(Rect))
    case KeyC => Some(ModeSelect(Circle))
    case KeyE => Some(ModeSelect(Eraser))
    case KeyEscape => Some(Quit)
    case _ => None
  }

  /** The Ctrl-key table. */
  function CtrlShortcut(k: Key): Option<Command>
  {
    match k
    case KeyD => Some(DrawModeToggle)
    case KeyC => Some(CanvasClear)
    case KeyZ => Some(UndoAction)
    case KeyS => Some(Export)
    case _ => None
  }

  /** keyPressEvent's choice for key k, with ctrl telling whether the
      Control modifier is held. */
  function Dispatch(k: Key, ctrl: bool): Command
  {
    if PlainShortcut(k).Some? then PlainShortcut(k).value
    else if ctrl && CtrlShortcut(k).Some? then CtrlShortcut(k).value
    else NoCommand
  }

  /** The plain table shadows the Ctrl table: Ctrl+C selects circle mode, so
      this path never clears the canvas; the plain keys ignore Ctrl; the
      Ctrl-only commands need Ctrl. */
  lemma DispatchOrder(k: Key, ctrl: bool)
    ensures Dispatch(KeyC, true) == ModeSelect(Circle)
    ensures Dispatch(k, ctrl) != CanvasClear
    ensures PlainShortcut(k).Some? ==> Dispatch(k, ctrl) == Dispatch(k, !ctrl)
    ensures Dispatch(k, ctrl) in {DrawModeToggle, UndoAction, Export} ==> ctrl
    ensures Dispatch(k, false) in {PanelToggle, Quit, NoCommand} || Dispatch(k, false).ModeSelect?
  {
  }
}
