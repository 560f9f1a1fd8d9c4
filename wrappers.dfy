/** The optional value used throughout the model: `undefined`, `null` and
    `NaN` on the TypeScript side all become `None` here. */
module Wrappers {

  datatype Option<+T> = None | Some(value: T) {

    /** `value ?? default` */
    function GetOr(default: T): T {
      match this
      case Some(v) => v
      case None => default
    }
  }
}
