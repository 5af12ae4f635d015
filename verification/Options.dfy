/** Optional values, shared by every module of the project. */
module Options {
  datatype Option<+T> = None | Some(value: T) {
    function Or<U>(default: U, f: T -> U): U {
      match this
      case Some(v) => f(v)
      case None => default
    }
  }
}
