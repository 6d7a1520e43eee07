/**
 * The messages of src/main.rs: the transport commands the controller sends to
 * the playback engine, the result a key handler reports to the dispatcher,
 * and the key codes the handlers inspect.
 */
module Protocol {

  /**
   * `Command`. File paths are strings; `Volume` carries its signed step in
   * hundredths of the unit volume (the source's `f32` step of 0.1 is 10).
   */
  datatype Command =
    | PlayPause(path: string)
    | New(path: string)
    | Forward(distance: nat, length: nat)
    | Backward(distance: nat)
    | Volume(step: int)
    | Next(path: string, count: int)
    | Previous(path: string, count: int)
    | Append(path: string, count: int)

  /** `Action`: what a key handler asks of the dispatcher. */
  datatype Action = NoAction | Submit | Escape

  /** The part of a key event the handlers look at. */
  datatype KeyCode = Char(c: char) | Tab | Esc | Enter | Backspace | OtherKey

  /** `VOLUME_STEP` (0.1) in hundredths. */
  const VOLUME_STEP: int := 10
}
