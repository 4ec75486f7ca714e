/** Values shared by the modules of the model.

    How an exception of the source is represented:
    - a function whose source raises returns `Outcome.IndexOutOfRange` (an
      array read) or a `Run` whose `thrown` is set (a frame step);
    - a method returns `thrown`, leaving the fields as the source leaves them
      at the point of the raise. */
module Wrappers {
  /** A reference that may be null, or a value that may be absent. */
  datatype Option<T> = None | Some(value: T)
}
