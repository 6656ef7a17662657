/** The optional value used for Python's `str | None` results and queue items. */
module Wrappers {

  datatype Option<+T> = None | Some(value: T)
}
