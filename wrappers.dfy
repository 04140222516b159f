/** The absent-or-present value used for the component's nullable state
    (`useState<T | null>`) and for optional payload fields. */
module Wrappers {

  datatype Option<+T> = None | Some(value: T)
}
