/** Swift's `Optional`, and the optional chaining `o?[keyPath: kp]` the stores use. */
module Optionals {

  datatype Option<+T> = None | Some(value: T)

  /** `o?[keyPath: kp]` where `kp` leads to a non-optional value. */
  function MapOption<T, U>(o: Option<T>, f: T -> U): (mapped: Option<U>)
  {
    match o
    case None => None
    case Some(t) => Some(f(t))
  }

  /** `o?[keyPath: kp]` where `kp` leads to an optional value: the chain flattens. */
  function Chain<T, U>(o: Option<T>, f: T -> Option<U>): (chained: Option<U>)
  {
    match o
    case None => None
    case Some(t) => f(t)
  }
}
