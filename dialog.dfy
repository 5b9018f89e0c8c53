/** The blocking dialog both screens show through `Alert.alert`. */
module Dialog {

  /** A dialog: its title and its message. */
  datatype Alert = Alert(title: string, message: string)

  /** The title both screens give the dialog of a failed request. */
  const ErrorTitle := "Erro"
}
