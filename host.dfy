/**
 * The state outside the screens that the handlers change: the `'username'`
 * entry of the key-value store, the navigation stack and the insert requests
 * issued to the backend.
 */
module Host {
  import opened Wrappers
  import opened Navigation
  import opened Backend

  class Device {
    /** The value stored under the key `'username'`, if any. */
    var store: Option<string>
    /** The navigation stack, bottom first; empty until `AppRoot.Launch` sets the boot stack. */
    var stack: seq<Route>
    /** Every insert issued to the backend, oldest first. */
    var outbox: seq<InsertRequest>

    constructor (stored: Option<string>)
      ensures store == stored && stack == [] && outbox == []
    {
      store := stored;
      stack := [];
      outbox := [];
    }
  }
}
