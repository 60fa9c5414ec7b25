/** The parts of react-router's location and navigation that the route guard
    and the login page read and produce. */
module Routing {
  import opened Types

  /** A router location. `state` is whatever the previous navigation attached. */
  datatype Location = Location(pathname: string, search: string, hash: string, state: Option<NavState>)

  /** The navigation state the route guard attaches: `{ from: location }`. */
  datatype NavState = NavState(from: Option<Location>)

  /** A `<Navigate>` element or a `navigate(...)` call: its target, the state
      passed along, and whether the history entry is replaced. */
  datatype Navigation = Navigation(to: string, state: Option<NavState>, replace: bool)
}
