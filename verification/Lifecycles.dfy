// The lifecycle of a thread pool.

module Lifecycles {

  datatype Life = Running | Shutdown | Stopping
}
