/** Small failure-carrying datatype shared by the modules of the adapter. */
module Wrappers {

  /** A value that may be absent; `None` also stands for a nil Go error. */
  datatype Option<+T> = None | Some(value: T)
}
