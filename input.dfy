/** Keyboard input as both games receive it from Rubygame's event queue.
    Key codes are SDL 1.2 key symbols; only their being distinct matters to the games. */
module Input {

  type Key = int

  const LetterS: Key := 115
  const LetterW: Key := 119
  const UpArrow: Key := 273
  const DownArrow: Key := 274
  const RightArrow: Key := 275
  const LeftArrow: Key := 276

  /** A key press, a key release, or any other event (quit, mouse, window). */
  datatype Event = KeyDown(key: Key) | KeyUp(key: Key) | Other
}
