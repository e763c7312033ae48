// A value that may be absent: no timer, no answer pending, a refused request.
module Options {

  datatype Option<T> = None | Some(value: T)
}
