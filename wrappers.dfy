/** Option and Result, the shapes used for Python's `None` and for raised exceptions. */
module Wrappers {

  datatype Option<+T> = None | Some(value: T)

  datatype Result<+T, +E> = Ok(value: T) | Err(error: E)

  /** Bytes are integers in 0..255, as Python's `bytes` elements are. */
  type byte = b: int | 0 <= b < 256
}

/** The inline keyboards both bot front ends send. */
module Markup {
  /** One inline button: the text shown and the callback data it sends back. */
  datatype Button = Button(text: string, data: string)
}
