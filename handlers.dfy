/** The function values the dispatcher can end up calling. */
module Handlers {

  /** The name of a user-supplied function (a route or controller function). */
  type HandlerId = string

  /**
   * A function value held by the closure variable `handler` or stamped onto a
   * route entry. User code is opaque: calling `User(id)` is recorded, not run.
   */
  datatype Handler =
    | User(id: HandlerId)      // a function from the route table or the controllers
    | Noop                     // the `function(){}` that marks a top-level entry as run
    | Fallback(route: string)  // the default `handler` of one `to` call: `navigate(route, go)`

  /** What calling `h` contributes to the call trace by itself. */
  function Calls(h: Handler): seq<HandlerId>
  {
    if h.User? then [h.id] else []
  }
}
