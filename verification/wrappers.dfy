/** The optional value the engine returns: `None` for an invalid query. */
module Wrappers {

  datatype Option<+T> = None | Some(value: T) {

    /** The wrapped value; calling it on `None` is the model of a failed `expect`. */
    function Extract(): T
      requires Some?
    {
      value
    }
  }
}
