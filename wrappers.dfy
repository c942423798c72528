/** The one failure-compatible wrapper the model needs: a value that may be absent
    (a null Java reference, a null C pointer). */
module Wrappers {
  datatype Option<+T> = None | Some(value: T)
}
