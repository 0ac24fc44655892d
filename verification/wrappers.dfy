/** The optional value used wherever the source has `T | null`, `T | undefined`
    or a lookup that may miss (`Array.prototype.find`, `obj[key] ?? …`). */
module Wrappers {

  datatype Option<+T> = None | Some(value: T) {

    /** `this ?? default` */
    function GetOr(default: T): T {
      match this
      case Some(v) => v
      case None => default
    }
  }
}
