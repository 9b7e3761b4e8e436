/** Values shared by both adapters. */
module Common {

  /** A message carried through an adapter. The adapters initialise their
      message slots with the integer 0, so messages are integers here. */
  type Msg = int

  /** Python's `None`-or-value, as used for `sent_msg`. */
  datatype Option<T> = None | Some(value: T)

  /** The sequence of values held by the `Some` entries of `os`, in order. */
  function Present<T>(os: seq<Option<T>>): seq<T> {
    if os == [] then []
    else (if os[0].Some? then [os[0].value] else []) + Present(os[1..])
  }
}
