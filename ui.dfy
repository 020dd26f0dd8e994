/** The toast notifications the pages show. */
module Ui {

  datatype ToastVariant = Default | Destructive

  /** A toast: its variant, title and description. */
  datatype Toast = Toast(variant: ToastVariant, title: string, description: string)
}
