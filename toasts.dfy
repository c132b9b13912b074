/** The transient notifications the forms raise on submit. */
module Toasts {
  /** `Plain` and `Destructive` are the two variants of the page-level toast hook;
      `Success` and `Error` are the two calls of the stand-alone toast library. */
  datatype ToastKind = Plain | Destructive | Success | Error

  datatype Toast = Toast(kind: ToastKind, title: string, description: string)

  /** A toast announces a problem exactly when its kind is one of the failure kinds. */
  predicate IsFailure(t: Toast) {
    t.kind == Destructive || t.kind == Error
  }
}
