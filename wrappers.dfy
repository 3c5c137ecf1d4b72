/** The optional value used wherever the sources return "nothing found"
    (Rust's `Option`, Go's nil pointer, a result that the C code leaves unwritten). */
module Wrappers {

  datatype Option<+T> = None | Some(value: T)
}
