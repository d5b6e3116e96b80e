/** The toast notifications the pages raise: a title, an optional description, and the destructive variant. */
module Toasts {
  import opened Wrappers

  datatype Toast = Toast(title: string, description: Option<string>, destructive: bool)
}
