/** What a page does to the screen besides changing store state: error toasts
    and navigation. Pages record these in order. */
module Ui {
  /** A visible effect of a page handler. */
  datatype Effect =
    | ToastError(message: string)
    | Navigate(path: string)
}
