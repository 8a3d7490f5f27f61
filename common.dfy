/** Small value types shared by the two components of the page. */
module Common {

  /** A value that may be absent; `None` stands for JavaScript's `null`. */
  datatype Option<+T> = None | Some(value: T)

  /** A notification handed to the toast library: its kind and its text. */
  datatype Toast = ToastSuccess(message: string) | ToastError(message: string)
}
