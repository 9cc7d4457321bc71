/** The optional value the poller hands back: an event, or nothing when the queue is empty. */
module Wrappers {

  datatype Option<+T> = None | Some(value: T)
}
