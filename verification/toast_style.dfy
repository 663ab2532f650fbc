/** The styles a toast is shown in, and one toast request. */
module ToastStyles {
  datatype ToastStyle = Negative | Neutral | Positive

  /** One `showToast(style:message:)` request. */
  datatype Toast = Toast(style: ToastStyle, message: string)
}
