/** A value that may be absent: a null title from the summary service, or
    a chart that is not drawn. */
module Wrappers {

  datatype Option<+T> = None | Some(value: T)
}
