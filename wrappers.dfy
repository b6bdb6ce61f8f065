/** The optional value used for "a request was or was not started" and for
    replaying a trace that may contain an event that cannot happen. */
module Wrappers {

  datatype Option<+T> = None | Some(value: T)
}
