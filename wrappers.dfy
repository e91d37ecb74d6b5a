/** A value that may be absent: JavaScript's `undefined` wherever the handlers
    read an optional route parameter, token claim, record or form part. */
module Wrappers {

  datatype Option<+T> = None | Some(value: T)
}
