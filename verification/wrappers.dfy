/** The optional value used for the account manager's refresh result and for
    results the backend may leave out. */
module Wrappers {

  datatype Option<+T> = None | Some(value: T)

}
