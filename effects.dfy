/** What a handler hands back besides its state change. */
module Effects {

  datatype Option<T> = None | Some(value: T)

  /** Whether a handler shows the user a blocking `alert`, and with what text. */
  datatype Notice = Quiet | Alert(message: string)
}
