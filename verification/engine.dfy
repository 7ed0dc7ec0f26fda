/**
 * Stand-ins for the types the game takes from its `engine` module and from
 * `web_sys`. Those modules are not part of this model: only the shape the
 * game relies on is kept.
 */
module Engine {

  /** A 2D integer vector. The Rust width of its coordinates is not known here. */
  datatype Point = Point(x: int, y: int)

  /** An axis-aligned rectangle handed to the renderer. */
  datatype Rect = Rect(x: int, y: int, width: int, height: int)

  /** The keys currently held down; `is_pressed` asks whether one of them has the given code. */
  datatype KeyState = KeyState(pressed: set<string>)
  {
    predicate IsPressed(code: string) {
      code in pressed
    }
  }

  /** A handle to a loaded browser image element; its pixels are not modelled. */
  datatype HtmlImageElement = HtmlImageElement(handle: nat)
}
